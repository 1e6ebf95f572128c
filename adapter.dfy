/** `MedicalConsultationAdapter` of `ai-agent/interview_agent_adapter.py`: a
    session object that holds an optional doctor agent and the consultation
    dict, records the conversation as doctor and patient entries, and stores
    the agent's prescription when one comes back. The agent itself is a
    collaborator: the opening question it gives, its reply to an answer (a
    function of the answer and of the consultation dict it is shown) and its
    summary are parameters. */
module Adapter {
  import opened Json

  datatype Role = Doctor | Patient

  /** One `{"role": ..., "content": ...}` entry of the conversation. */
  datatype Entry = Entry(role: Role, content: Value)

  function RoleName(role: Role): string {
    match role
    case Doctor => "doctor"
    case Patient => "patient"
  }

  function EntryValue(e: Entry): Value {
    Obj([("role", Str(RoleName(e.role))), ("content", e.content)])
  }

  /** The conversation as the JSON list the dict holds. */
  function Entries(conversation: seq<Entry>): (r: seq<Value>)
    ensures |r| == |conversation|
    ensures forall i :: 0 <= i < |conversation| ==> r[i] == EntryValue(conversation[i])
  {
    seq(|conversation|, i requires 0 <= i < |conversation| => EntryValue(conversation[i]))
  }

  /** `consultation_data`: its symptom and history lists are never filled,
      so only the prescription slot and the conversation vary. */
  function Data(prescription: Value, conversation: seq<Entry>): Value {
    Obj([("symptoms", Arr([])), ("history", Arr([])),
         ("prescription", prescription), ("conversation", Arr(Entries(conversation)))])
  }

  /** The shape a new or finalized session starts from. */
  const Fresh: Value := Data(Null, [])

  /** A reply that ends the consultation: a dict holding "prescription". */
  predicate IsPrescription(reply: Value) {
    reply.Obj? && HasKey(reply, "prescription")
  }

  const NoConsultation: Value := Obj([("error", Str("No active consultation"))])

  /** The dict never holds "diagnosis", so `get("diagnosis", "")` is always
      the empty string, and its prescription slot is what was stored. */
  lemma DataReads(prescription: Value, conversation: seq<Entry>)
    ensures Get(Data(prescription, conversation), "diagnosis", Str("")) == Ok(Str(""))
    ensures Subscript(Data(prescription, conversation), "prescription") == Ok(prescription)
  {
    var fields := Data(prescription, conversation).fields;
    assert fields[0].0 != "diagnosis" && fields[0].0 != "prescription" by {
      assert fields[0].0[0] == 's';
    }
    assert fields[1].0 != "diagnosis" && fields[1].0 != "prescription" by {
      assert fields[1].0[0] == 'h';
    }
    assert fields[2].0 == "prescription";
    assert fields[3].0 != "diagnosis" by {
      assert fields[3].0[0] == 'c';
    }
    assert IndexOf(fields[2..], "prescription") == 0;
    assert IndexOf(fields[1..], "prescription") == 1;
    assert IndexOf(fields[3..], "diagnosis") == -1 by {
      assert IndexOf(fields[4..], "diagnosis") == -1;
    }
  }

  /** Doctor and patient take turns, the doctor first. */
  predicate Alternates(conversation: seq<Entry>) {
    forall i :: 0 <= i < |conversation| ==> conversation[i].role == (if i % 2 == 0 then Doctor else Patient)
  }

  /** While the doctor's question is pending (odd length), an answer and
      the doctor's next question, or an answer alone, keep the turns. */
  lemma AnswerKeepsTurns(conversation: seq<Entry>, answer: Entry, question: Entry)
    requires Alternates(conversation) && |conversation| % 2 == 1
    requires answer.role == Patient && question.role == Doctor
    ensures Alternates(conversation + [answer])
    ensures Alternates(conversation + [answer, question])
  {
    var n := |conversation|;
    assert (n + 1) % 2 == 0;
  }

  /** Once a prescription has ended the consultation the doctor asks
      nothing more, so a further answer follows the patient's last one. */
  lemma AnswerAfterPrescription(conversation: seq<Entry>, answer: Entry)
    requires Alternates(conversation) && |conversation| % 2 == 0 && |conversation| > 0
    requires answer.role == Patient
    ensures !Alternates(conversation + [answer])
  {
    var c := conversation + [answer];
    assert c[|conversation|] == answer;
  }

  class ConsultationAdapter {
    /** Whether `self.agent` is set. */
    var active: bool
    var prescription: Value
    var conversation: seq<Entry>

    function ConsultationData(): Value
      reads this
    {
      Data(prescription, conversation)
    }

    /** Without an agent the dict has its initial shape. */
    predicate Valid()
      reads this
    {
      !active ==> prescription == Null && conversation == []
    }

    constructor()
      ensures Valid() && !active
      ensures ConsultationData() == Fresh
    {
      active := false;
      prescription := Null;
      conversation := [];
    }

    /** `start_consultation`: take a new agent, record its opening question
        as a doctor entry and return it. */
    method Start(opening: Value) returns (question: Value)
      modifies this
      ensures active && question == opening
      ensures conversation == old(conversation) + [Entry(Doctor, opening)]
      ensures prescription == old(prescription)
    {
      active := true;
      question := opening;
      conversation := conversation + [Entry(Doctor, question)];
    }

    /** `process_patient_response`: without an agent, start one; otherwise
        record the answer, show the agent the answer and the dict that
        already holds it, and either store its prescription and return
        None, or record its reply as a doctor entry and return it. */
    method ProcessPatientResponse(response: Value, opening: Value, consult: (Value, Value) -> Value)
      returns (reply: Value)
      requires Valid()
      modifies this
      ensures Valid() && active
      ensures !old(active) ==> (reply == opening
        && conversation == old(conversation) + [Entry(Doctor, opening)] && prescription == old(prescription))
      ensures old(active) ==>
        var answer := consult(response, Data(old(prescription), old(conversation) + [Entry(Patient, response)]));
        if IsPrescription(answer) then
          reply == Null && prescription == answer
          && conversation == old(conversation) + [Entry(Patient, response)]
        else
          reply == answer && prescription == old(prescription)
          && conversation == old(conversation) + [Entry(Patient, response), Entry(Doctor, answer)]
      ensures Alternates(old(conversation)) && (!old(active) || |old(conversation)| % 2 == 1) ==> Alternates(conversation)
    {
      if !active {
        reply := Start(opening);
        return;
      }
      var asked := Entry(Patient, response);
      conversation := conversation + [asked];
      var answer := consult(response, ConsultationData());
      if IsPrescription(answer) {
        prescription := answer;
        reply := Null;
        if Alternates(old(conversation)) && |old(conversation)| % 2 == 1 {
          AnswerKeepsTurns(old(conversation), asked, Entry(Doctor, answer));
        }
        return;
      }
      conversation := conversation + [Entry(Doctor, answer)];
      reply := answer;
      if Alternates(old(conversation)) && |old(conversation)| % 2 == 1 {
        AnswerKeepsTurns(old(conversation), asked, Entry(Doctor, answer));
      }
    }

    /** `finalize_consultation`: without an agent, the error dict and no
        change; otherwise the summary (a diagnosis that is always empty, the
        stored prescription and the agent's summary), after which the agent
        is dropped and the dict starts afresh. */
    method Finalize(agentSummary: Value) returns (result: Value)
      requires Valid()
      modifies this
      ensures Valid() && !active && ConsultationData() == Fresh
      ensures !old(active) ==> result == NoConsultation && unchanged(this)
      ensures old(active) ==> result == Obj([("diagnosis", Str("")), ("prescription", old(prescription)),
                                             ("conversation_summary", agentSummary)])
    {
      if !active {
        return NoConsultation;
      }
      var data := ConsultationData();
      DataReads(prescription, conversation);
      var diagnosis := Get(data, "diagnosis", Str("")).value;
      var stored := Subscript(data, "prescription").value;
      result := Obj([("diagnosis", diagnosis), ("prescription", stored), ("conversation_summary", agentSummary)]);
      active := false;
      prescription := Null;
      conversation := [];
    }
  }
}
