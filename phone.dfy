/** The phone-call turn handler `process_voice_input` of
    `ai_agent/interview_agent.py`: a string-tagged call state advanced by
    one step per caller utterance, each turn logging what the caller said
    and what the agent answered. The language model is the per-turn
    `TurnReplies`; timestamps and the saving of the call are left out. */
module PhoneCall {
  import opened PyStr
  import opened Json
  import opened Consultation

  datatype Option<T> = None | Some(value: T)

  /** The values `call_state` takes. */
  datatype CallState = Greeting | Demographics | ChiefComplaint | Symptoms | MedicalHistory | Medications | FollowUp | End

  /** One `call_history` entry, timestamp aside. */
  datatype CallEntry = User(said: string) | Doctor(answered: Reply)

  /** What the language model gives during one turn: the parsed reply to the
      demographics prompt (`Malformed` also stands for a failed call), the
      assessment text and the answer to a follow-up concern. */
  datatype TurnReplies = TurnReplies(demographics: Parse, assessment: string, answer: string)

  /** The next state and the spoken reply of one turn. */
  datatype Turn = Turn(next: CallState, reply: Reply)

  /** The agent's answer in one turn, by the template it comes from. */
  datatype Reply =
    | Greet
    | Retry
    | ThankYou(name: Value)
    | AskSymptoms
    | AskHistory
    | AskMedications
    | Assessment(assessment: string)
    | Farewell
    | Answer(answer: string)
    | Default

  /** The text spoken for a reply. */
  function Spoken(r: Reply): string {
    match r
    case Greet => "Hello, I'm your pulse healthcare assistant. Could you please tell me your name, age, and biological sex?"
    case Retry => "I didn't quite catch that. Could you please tell me your name, age, and biological sex?"
    case ThankYou(name) => "Thank you " + Display(name) + ". What brings you here today?"
    case AskSymptoms => "Could you please describe your symptoms in detail and tell me how long you've been experiencing them?"
    case AskHistory => "I understand. Do you have any relevant medical history I should know about?"
    case AskMedications => "Are you currently taking any medications?"
    case Assessment(a) => "Based on what you've told me, " + a + " Is there anything else you'd like to discuss?"
    case Farewell => "Thank you for calling. Take care and have a good day."
    case Answer(a) => a + " Is there anything else I can help with?"
    case Default => "Thank you for calling. Is there anything else I can help with?"
  }

  /** The words whose presence in the lower-cased text ends the call. */
  const Closers: seq<string> := ["no", "nothing", "that's all", "goodbye"]

  /** The position of a state along the call. */
  function Rank(s: CallState): (r: nat)
    ensures r <= 7
    ensures r == 0 <==> s == Greeting
    ensures r == 7 <==> s == End
  {
    match s
    case Greeting => 0
    case Demographics => 1
    case ChiefComplaint => 2
    case Symptoms => 3
    case MedicalHistory => 4
    case Medications => 5
    case FollowUp => 6
    case End => 7
  }

  /** The demographics reply was understood: `json.loads` gave a dict, so
      `.get('name', 'there')` did not raise. */
  predicate Understood(reply: Parse) {
    reply.Parsed? && reply.v.Obj?
  }

  /** `demographics.get('name', default)` */
  function CallerName(demographics: Value, default: Value): Value
    requires demographics.Obj?
  {
    if HasKey(demographics, "name") then At(demographics, "name") else default
  }

  /** The caller is done: some closing word occurs in the lower-cased text,
      as a substring. */
  predicate EndsCall(text: string) {
    exists i :: 0 <= i < |Closers| && Contains(Lower(text), Closers[i])
  }

  /** One turn of the machine, state and reply; the caller's text only
      matters in the follow-up state. */
  function Step(s: CallState, text: string, llm: TurnReplies): Turn {
    match s
    case Greeting => Turn(Demographics, Greet)
    case Demographics =>
      if Understood(llm.demographics) then Turn(ChiefComplaint, ThankYou(CallerName(llm.demographics.v, Str("there"))))
      else Turn(Demographics, Retry)
    case ChiefComplaint => Turn(Symptoms, AskSymptoms)
    case Symptoms => Turn(MedicalHistory, AskHistory)
    case MedicalHistory => Turn(Medications, AskMedications)
    case Medications => Turn(FollowUp, Assessment(llm.assessment))
    case FollowUp => if EndsCall(text) then Turn(End, Farewell) else Turn(FollowUp, Answer(llm.answer))
    case End => Turn(End, Default)
  }

  /** Every turn moves at most one state along, never back, and stays put
      exactly on a misunderstood demographics reply, a follow-up that does
      not close, or after the end. */
  lemma StepRank(s: CallState, text: string, llm: TurnReplies)
    ensures Rank(s) <= Rank(Step(s, text, llm).next) <= Rank(s) + 1
    ensures Step(s, text, llm).next == s <==>
      (s == Demographics && !Understood(llm.demographics)) || (s == FollowUp && !EndsCall(text)) || s == End
  {
  }

  /** The state after a sequence of turns. */
  function Run(s: CallState, turns: seq<(string, TurnReplies)>): CallState
    decreases |turns|
  {
    if turns == [] then s else Run(Step(s, turns[0].0, turns[0].1).next, turns[1..])
  }

  /** `n` turns advance the call by at most `n` states and never back. */
  lemma {:induction false} RunRank(s: CallState, turns: seq<(string, TurnReplies)>)
    ensures Rank(s) <= Rank(Run(s, turns)) <= Rank(s) + |turns|
    decreases |turns|
  {
    if turns != [] {
      StepRank(s, turns[0].0, turns[0].1);
      RunRank(Step(s, turns[0].0, turns[0].1).next, turns[1..]);
    }
  }

  /** A call cannot end in fewer than seven turns. */
  lemma EndNeedsSevenTurns(turns: seq<(string, TurnReplies)>)
    requires Run(Greeting, turns) == End
    ensures |turns| >= 7
  {
    RunRank(Greeting, turns);
  }

  /** Once ended, a call stays ended and every turn gets the default reply. */
  lemma {:induction false} EndIsFinal(turns: seq<(string, TurnReplies)>)
    ensures Run(End, turns) == End
    decreases |turns|
  {
    if turns != [] {
      EndIsFinal(turns[1..]);
    }
  }

  /** "no" is matched as a substring: "I know" ends the call. */
  lemma IKnowEndsCall(llm: TurnReplies)
    ensures Step(FollowUp, "I know", llm) == Turn(End, Farewell)
  {
    assert Lower("I know") == "i know";
    assert OccursAt("i know", "no", 3);
    ContainsAt("i know", "no");
    assert Contains(Lower("I know"), Closers[0]);
  }

  /** A further question containing "another" ends the call too. */
  lemma AnotherQuestionEndsCall(llm: TurnReplies)
    ensures Step(FollowUp, "another", llm).next == End
  {
    assert Lower("another") == "another";
    assert OccursAt("another", "no", 1);
    ContainsAt("another", "no");
    assert Contains(Lower("another"), Closers[0]);
  }

  /** A misunderstood demographics reply asks again and stays put. */
  lemma DemographicsRetry(text: string, llm: TurnReplies)
    requires !Understood(llm.demographics)
    ensures Step(Demographics, text, llm) == Turn(Demographics, Retry)
  {
  }

  /** The call log alternates: caller first, then the agent, turn by turn. */
  predicate Alternates(log: seq<CallEntry>) {
    |log| % 2 == 0 && forall i :: 0 <= i < |log| ==> (log[i].User? <==> i % 2 == 0)
  }

  /** A turn keeps the log alternating. */
  lemma AlternatesTurn(log: seq<CallEntry>, said: string, answered: Reply)
    requires Alternates(log)
    ensures Alternates(log + [User(said), Doctor(answered)])
  {
    var log' := log + [User(said), Doctor(answered)];
    forall i | 0 <= i < |log'| ensures log'[i].User? <==> i % 2 == 0 {
      if i < |log| {
        assert log'[i] == log[i];
      }
    }
  }

  /** The file `save_phone_consultation` writes the call to: the caller's
      name with spaces turned into underscores, lower-cased, between
      "phone_consultation_" and the clock's stamp. */
  function PhoneFileName(name: string, stamp: string): string {
    "phone_consultation_" + Lower(ReplaceChar(name, ' ', '_')) + "_" + stamp + ".json"
  }

  /** Whatever the caller's name, the file name has no space in it (given
      a stamp without one). */
  lemma PhoneFileNameHasNoSpace(name: string, stamp: string)
    requires ' ' !in stamp
    ensures ' ' !in PhoneFileName(name, stamp)
  {
    var part := Lower(ReplaceChar(name, ' ', '_'));
    assert ' ' !in part by {
      forall i | 0 <= i < |part| ensures part[i] != ' ' {
        assert ReplaceChar(name, ' ', '_')[i] != ' ';
      }
    }
    var f := PhoneFileName(name, stamp);
    var head := "phone_consultation_";
    assert f == head + part + "_" + stamp + ".json";
    forall i | 0 <= i < |f| ensures f[i] != ' ' {
      if i < |head| {
        assert f[i] == head[i];
      } else if i < |head| + |part| {
        assert f[i] == part[i - |head|];
      } else if i == |head| + |part| {
      } else if i < |head| + |part| + 1 + |stamp| {
        assert f[i] == stamp[i - |head| - |part| - 1];
      } else {
        assert f[i] == ".json"[i - |head| - |part| - 1 - |stamp|];
      }
    }
  }

  /** One `call_history` entry as saved. */
  function EntryValue(e: CallEntry): Value {
    match e
    case User(said) => Obj([("user", Str(said))])
    case Doctor(answered) => Obj([("doctor", Str(Spoken(answered)))])
  }

  function CallLog(log: seq<CallEntry>): (r: seq<Value>)
    ensures |r| == |log|
    ensures forall i :: 0 <= i < |log| ==> r[i] == EntryValue(log[i])
  {
    seq(|log|, i requires 0 <= i < |log| => EntryValue(log[i]))
  }

  /** The phone-call attributes of the agent. Before the first turn
      `call_state` does not exist yet (`started` is false). */
  /** The record `save_phone_consultation` writes gives back, under each of
      its five keys, the value put there. */
  lemma CallRecordMembers(patient: Value, symptoms: Value, history: Value, medications: Value, log: Value)
    ensures var record := Obj([("patient", patient), ("symptoms", symptoms), ("medical_history", history),
        ("medications", medications), ("conversation_history", log)]);
      Member(record, "patient") == patient && Member(record, "symptoms") == symptoms
      && Member(record, "medical_history") == history && Member(record, "medications") == medications
      && Member(record, "conversation_history") == log
  {
    var record := Obj([("patient", patient), ("symptoms", symptoms), ("medical_history", history),
      ("medications", medications), ("conversation_history", log)]);
    assert IndexOf(record.fields[1..], "symptoms") == 0;
    assert IndexOf(record.fields[2..], "medical_history") == 0;
    assert IndexOf(record.fields[3..], "medications") == 0;
    assert IndexOf(record.fields[4..], "conversation_history") == 0;
  }

  class CallAgent {
    var started: bool
    var callState: CallState
    var demographics: Value
    var callHistory: seq<CallEntry>
    var chiefComplaint: Option<string>
    var symptoms: Option<string>
    /** `medical_history`, which `__init__` sets to `[]` and the call
        overwrites with the caller's answer. */
    var medicalHistory: Value
    var medications: Option<string>

    /** The attributes the caller's answers create exist exactly once the
        state that asked for them has been passed. */
    predicate Filled()
      reads this
    {
      (Rank(callState) > Rank(ChiefComplaint) <==> chiefComplaint.Some?)
      && (Rank(callState) > Rank(Symptoms) <==> symptoms.Some?)
      && (Rank(callState) > Rank(Medications) <==> medications.Some?)
    }

    /** The log alternates, the prompts' attributes are set, and before the
        first turn every attribute the first turn creates holds the value it
        will be given. */
    predicate Valid()
      reads this
    {
      Alternates(callHistory) && Filled()
      && (!started ==> callHistory == [] && callState == Greeting && demographics == Obj([]))
    }

    /** The demographics exist, are a dict, and give the name as text. */
    predicate Named()
      reads this
    {
      started && demographics.Obj? && CallerName(demographics, Str("unknown")).Str?
    }

    /** `save_phone_consultation`, clock aside: the file name and the record,
      or the error raised on the way. The name comes first: the demographics
      must exist and be a dict and the name a string; then the record reads
      the symptoms and the medications, which exist only once asked for,
      and the first log entry. */
    function PhoneRecord(stamp: string): (r: Result<(string, Value)>)
      reads this
      ensures r.Ok? <==> (Named() && symptoms.Some? && medications.Some? && callHistory != [])
      ensures r.Err? ==> r.error == (if Named() && symptoms.Some? && medications.Some? then IndexError else AttributeError)
      ensures r.Ok? ==> (r.value.0 == PhoneFileName(CallerName(demographics, Str("unknown")).s, stamp)
        && Member(r.value.1, "patient") == demographics
        && Member(r.value.1, "symptoms") == Str(symptoms.value)
        && Member(r.value.1, "medical_history") == medicalHistory
        && Member(r.value.1, "medications") == Str(medications.value)
        && Member(r.value.1, "conversation_history") == Arr(CallLog(callHistory)))
    {
      if !started || !demographics.Obj? then Err(AttributeError)
      else
        var name := CallerName(demographics, Str("unknown"));
        if !name.Str? then Err(AttributeError)
        else if symptoms.None? || medications.None? then Err(AttributeError)
        else if callHistory == [] then Err(IndexError)
        else
          var record := Obj([("patient", demographics), ("symptoms", Str(symptoms.value)),
            ("medical_history", medicalHistory), ("medications", Str(medications.value)),
            ("conversation_history", Arr(CallLog(callHistory)))]);
          CallRecordMembers(demographics, Str(symptoms.value), medicalHistory, Str(medications.value), Arr(CallLog(callHistory)));
          Ok((PhoneFileName(name.s, stamp), record))
    }

    /** A call that has passed the medications question, whose caller gave
        a name as text, can be saved. */
    lemma SavableAfterMedications(stamp: string)
      requires Valid() && Rank(callState) > Rank(Medications) && Named() && callHistory != []
      ensures PhoneRecord(stamp).Ok?
    {
    }

    /** Saving before the symptoms were asked for raises. */
    lemma UnsavableBeforeSymptoms(stamp: string)
      requires Valid() && Rank(callState) <= Rank(Symptoms)
      ensures PhoneRecord(stamp) == Err(AttributeError)
    {
    }

    constructor()
      ensures Valid() && !started
      ensures chiefComplaint == None && symptoms == None && medications == None
      ensures medicalHistory == Arr([])
    {
      started := false;
      callState := Greeting;
      demographics := Obj([]);
      callHistory := [];
      chiefComplaint := None;
      symptoms := None;
      medicalHistory := Arr([]);
      medications := None;
    }

    /** `process_voice_input`: set up the call on the first turn, log the
      caller's text, answer according to the state, log the answer. */
    method ProcessVoiceInput(text: string, llm: TurnReplies) returns (reply: Reply)
      requires Valid()
      modifies this
      ensures Valid() && started
      ensures Turn(callState, reply) == Step(old(callState), text, llm)
      ensures callHistory == old(callHistory) + [User(text), Doctor(reply)]
      ensures demographics == (if old(callState) == Demographics && llm.demographics.Parsed? then llm.demographics.v else old(demographics))
      ensures chiefComplaint == (if old(callState) == ChiefComplaint then Some(text) else old(chiefComplaint))
      ensures symptoms == (if old(callState) == Symptoms then Some(text) else old(symptoms))
      ensures medicalHistory == (if old(callState) == MedicalHistory then Str(text) else old(medicalHistory))
      ensures medications == (if old(callState) == Medications then Some(text) else old(medications))
    {
      if !started {
        StartCall();
      }
      callHistory := callHistory + [User(text)];
      reply := Respond(text, llm, old(callState));
      callHistory := callHistory + [Doctor(reply)];
      AlternatesTurn(old(callHistory), text, reply);
    }

    /** The set-up of the first turn: the call state, the demographics and
      the log come into existence with their initial values. */
    method StartCall()
      requires Valid() && !started
      modifies this`started, this`callState, this`demographics, this`callHistory
      ensures Valid() && started
      ensures callState == old(callState) && demographics == old(demographics) && callHistory == old(callHistory)
    {
      started := true;
      callState := Greeting;
      demographics := Obj([]);
      callHistory := [];
    }

    /** The state dispatch of `process_voice_input`: store what the state
      asked for, choose the reply and the next state. */
    method Respond(text: string, llm: TurnReplies, ghost s: CallState) returns (reply: Reply)
      requires Filled() && callState == s
      modifies this`callState, this`demographics, this`chiefComplaint, this`symptoms, this`medicalHistory, this`medications
      ensures Filled()
      ensures Turn(callState, reply) == Step(s, text, llm)
      ensures demographics == (if s == Demographics && llm.demographics.Parsed? then llm.demographics.v else old(demographics))
      ensures chiefComplaint == (if s == ChiefComplaint then Some(text) else old(chiefComplaint))
      ensures symptoms == (if s == Symptoms then Some(text) else old(symptoms))
      ensures medicalHistory == (if s == MedicalHistory then Str(text) else old(medicalHistory))
      ensures medications == (if s == Medications then Some(text) else old(medications))
    {
      match callState {
      case Greeting =>
        reply := Greet;
        callState := Demographics;
      case Demographics =>
        if llm.demographics.Parsed? {
          demographics := llm.demographics.v;
        }
        if Understood(llm.demographics) {
          reply := ThankYou(CallerName(demographics, Str("there")));
          callState := ChiefComplaint;
        } else {
          reply := Retry;
        }
      case ChiefComplaint =>
        chiefComplaint := Some(text);
        reply := AskSymptoms;
        callState := Symptoms;
      case Symptoms =>
        symptoms := Some(text);
        reply := AskHistory;
        callState := MedicalHistory;
      case MedicalHistory =>
        medicalHistory := Str(text);
        reply := AskMedications;
        callState := Medications;
      case Medications =>
        medications := Some(text);
        reply := Assessment(llm.assessment);
        callState := FollowUp;
      case FollowUp =>
        var closing := SaysClosing(text);
        if closing {
          reply := Farewell;
          callState := End;
        } else {
          reply := Answer(llm.answer);
        }
      case End =>
        reply := Default;
      }
    }
  }

  /** The generator expression `any(word in text.lower() for word in ...)`,
      word by word. */
  method SaysClosing(text: string) returns (r: bool)
    ensures r == EndsCall(text)
  {
    var lowered := Lower(text);
    var i := 0;
    while i < |Closers|
      invariant 0 <= i <= |Closers|
      invariant forall j :: 0 <= j < i ==> !Contains(lowered, Closers[j])
    {
      if Contains(lowered, Closers[i]) {
        return true;
      }
      i := i + 1;
    }
    return false;
  }
}
