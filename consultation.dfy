/** The pieces both interview agents share, written once: what the agent
    makes of a language-model reply (`analyze_symptoms`,
    `identify_medications`, `analyze_medical_history`), how one patient
    answer is read (`ask_question`), the record `save_consultation` writes,
    the treatment plan `generate_prescription` shows, the follow-up loop's
    stopping rule and the de-duplicating merge of `update_assessment`.
    The model is never asked to run: each reply is given as the value
    `json.loads` makes of its text, or as `Malformed` when that raises
    `JSONDecodeError`. */
module Consultation {
  import opened PyStr
  import opened Json
  import opened ExitCommand

  /** What `json.loads` makes of the text of one model reply. */
  datatype Parse = Malformed | Parsed(v: Value)

  // ---------------------------------------------------------------------
  // Extraction from model replies

  /** `analyze_symptoms`: the list under "symptoms" when the reply is a dict
      holding a list there, `[]` for a malformed reply or any other shape;
      a reply that parses to something other than a dict makes `.get`
      raise `AttributeError`, which the handler does not catch. */
  function AnalyzeSymptoms(reply: Parse): (r: Result<seq<Value>>)
    ensures r.Err? <==> reply.Parsed? && !reply.v.Obj?
    ensures r.Err? ==> r.error == AttributeError
    ensures r.Ok? && r.value != [] ==> reply.Parsed? && HasKey(reply.v, "symptoms") && At(reply.v, "symptoms") == Arr(r.value)
    ensures reply.Parsed? && HasKey(reply.v, "symptoms") && At(reply.v, "symptoms").Arr? ==> r == Ok(At(reply.v, "symptoms").items)
    ensures reply.Malformed? ==> r == Ok([])
  {
    match reply
    case Malformed => Ok([])
    case Parsed(v) =>
      var got :- Get(v, "symptoms", Null);
      if got.Arr? then Ok(got.items) else Ok([])
  }

  /** `identify_medications`: the value under "medications"; `[]` only for a
      malformed reply, since a missing key or a non-dict raises. */
  function IdentifyMedications(reply: Parse): (r: Result<Value>)
    ensures reply.Malformed? ==> r == Ok(Arr([]))
    ensures reply.Parsed? ==> (r.Ok? <==> HasKey(reply.v, "medications"))
    ensures reply.Parsed? && r.Ok? ==> r.value == At(reply.v, "medications")
    ensures r.Err? ==> r.error == (if reply.v.Obj? then KeyError else TypeError)
  {
    match reply
    case Malformed => Ok(Arr([]))
    case Parsed(v) => Subscript(v, "medications")
  }

  /** `analyze_medical_history` against the agent's current `medical_history`:
      the pair (history afterwards, value returned). The attribute
      `.extend` is looked up before the reply is subscripted, so a history
      that is not a list raises `AttributeError` first; a malformed reply
      returns `{}` and leaves the history alone. */
  function HistoryAnalysis(history: Value, reply: Parse): (r: Result<(Value, Value)>)
    ensures reply.Malformed? ==> r == Ok((history, Obj([])))
    ensures reply.Parsed? && !history.Arr? ==> r == Err(AttributeError)
    ensures r.Ok? <==> reply.Malformed? || (history.Arr? && HasKey(reply.v, "medical_history") && Iterate(At(reply.v, "medical_history")).Ok?)
    ensures r.Ok? && reply.Parsed? ==>
      r.value.1 == reply.v && history.Arr?
      && r.value.0 == Arr(history.items + Iterate(At(reply.v, "medical_history")).value)
    ensures r.Ok? ==> r.value.1.Obj?
  {
    match reply
    case Malformed => Ok((history, Obj([])))
    case Parsed(v) =>
      if !history.Arr? then Err(AttributeError)
      else
        var item :- Subscript(v, "medical_history");
        var grown :- Extend(history.items, item);
        Ok((Arr(grown), v))
  }

  /** Once `medical_history` holds a dict, as it does after the opening
      questions, no later analysis can change it: each attempt either
      raises `AttributeError` or, for a malformed reply, returns `{}`. */
  lemma DictHistoryNeverGrows(history: Value, reply: Parse)
    requires history.Obj?
    ensures HistoryAnalysis(history, reply) == Err(AttributeError) || HistoryAnalysis(history, reply) == Ok((history, Obj([])))
  {
  }

  // ---------------------------------------------------------------------
  // One patient answer

  /** What the patient does when asked: what is typed at the prompt, what
      the recorder transcribes (empty when recording fails) and what is
      typed at the fallback prompt. Text mode reads only the first. */
  datatype PatientInput = PatientInput(typed: string, transcript: string, fallback: string)

  datatype Resolution = Response(text: string) | ExitRequested

  /** `not s.strip()` */
  predicate Blank(s: string) {
    Strip(s) == []
  }

  /** How `ask_question` reads one answer. In text mode the typed line is the
      answer. In voice mode a typed line that is not blank is the answer; a
      blank one hands over to the recorder, and an empty transcript to the
      fallback prompt. Every channel read is first checked for an exit. */
  function Resolve(voice: bool, input: PatientInput): (r: Resolution)
    ensures r.Response? ==> !IsExit(r.text)
    ensures r.Response? ==> r.text == input.typed || (voice && (r.text == input.transcript || r.text == input.fallback))
  {
    if !voice then
      if IsExit(input.typed) then ExitRequested else Response(input.typed)
    else if IsExit(input.typed) then ExitRequested
    else if !Blank(input.typed) then Response(input.typed)
    else if IsExit(input.transcript) then ExitRequested
    else if input.transcript != "" then Response(input.transcript)
    else if IsExit(input.fallback) then ExitRequested
    else Response(input.fallback)
  }

  /** The reading part of `ask_question`, step by step as the source does
      it: each channel is checked with `is_exit_command` as soon as it is
      read. */
  method ReadAnswer(voice: bool, input: PatientInput) returns (r: Resolution)
    ensures r == Resolve(voice, input)
  {
    if voice {
      var typed := input.typed;
      var quit := IsExitCommand(typed);
      if quit {
        return ExitRequested;
      }
      if Strip(typed) == "" {
        var response := input.transcript;
        quit := IsExitCommand(response);
        if quit {
          return ExitRequested;
        }
        if response == "" {
          response := input.fallback;
          quit := IsExitCommand(response);
          if quit {
            return ExitRequested;
          }
        }
        return Response(response);
      }
      return Response(typed);
    } else {
      var response := input.typed;
      var quit := IsExitCommand(response);
      if quit {
        return ExitRequested;
      }
      return Response(response);
    }
  }

  /** In text mode the typed line is the answer unless it asks to exit. */
  lemma TextModeAnswer(input: PatientInput)
    ensures Resolve(false, input) == if IsExit(input.typed) then ExitRequested else Response(input.typed)
  {
  }

  /** In voice mode a typed line that is not blank decides alone. */
  lemma VoiceModeTypedAnswer(input: PatientInput)
    requires !Blank(input.typed)
    ensures Resolve(true, input) == if IsExit(input.typed) then ExitRequested else Response(input.typed)
  {
  }

  /** In voice mode a blank line hands over to the recorder, whose transcript
      is the answer when it is not empty and asks for no exit. */
  lemma VoiceModeTranscriptAnswer(input: PatientInput)
    requires Blank(input.typed) && input.transcript != ""
    ensures Resolve(true, input) == if IsExit(input.transcript) then ExitRequested else Response(input.transcript)
  {
    BlankIsNotExitStripped(input.typed);
  }

  /** The fallback prompt is read only after an empty transcript. */
  lemma VoiceModeFallbackAnswer(input: PatientInput)
    requires Blank(input.typed) && input.transcript == ""
    ensures Resolve(true, input) == if IsExit(input.fallback) then ExitRequested else Response(input.fallback)
  {
    BlankIsNotExitStripped(input.typed);
    BlankIsNotExit("");
  }

  lemma BlankIsNotExitStripped(s: string)
    requires Blank(s)
    ensures !IsExit(s)
  {
    StripBlank(s);
    BlankIsNotExit(s);
  }

  /** A voice-mode line of white space is never taken as an exit: it hands
      over to the recorder. */
  lemma BlankLineListens(input: PatientInput)
    requires AllSpace(input.typed)
    ensures Resolve(true, input) == Resolve(true, PatientInput("", input.transcript, input.fallback))
  {
    var bare := PatientInput("", input.transcript, input.fallback);
    StripBlank(input.typed);
    StripBlank(bare.typed);
    if input.transcript != "" {
      VoiceModeTranscriptAnswer(input);
      VoiceModeTranscriptAnswer(bare);
    } else {
      VoiceModeFallbackAnswer(input);
      VoiceModeFallbackAnswer(bare);
    }
  }

  // ---------------------------------------------------------------------
  // The prescription and the saved record

  /** The record `save_consultation` writes, timestamp aside: the
      prescription's "diagnosis" and "prescription" are read first, so a
      prescription that is still the initial `[]` raises `TypeError`. */
  function SaveRecord(prescription: Value, symptoms: seq<Value>, history: Value): (r: Result<Value>)
    ensures r.Ok? <==> HasKey(prescription, "diagnosis") && HasKey(prescription, "prescription")
    ensures r.Err? ==> r.error == (if prescription.Obj? then KeyError else TypeError)
    ensures r.Ok? ==>
      Member(r.value, "diagnosis") == At(prescription, "diagnosis")
      && Member(r.value, "prescription") == At(prescription, "prescription")
      && Member(r.value, "symptoms") == Arr(symptoms)
      && Member(r.value, "medical_history") == history
  {
    var diagnosis :- Subscript(prescription, "diagnosis");
    var plan :- Subscript(prescription, "prescription");
    var fields := [("diagnosis", diagnosis), ("prescription", plan), ("symptoms", Arr(symptoms)), ("medical_history", history)];
    assert IndexOf(fields[3..], "medical_history") == 0;
    assert IndexOf(fields[2..], "medical_history") == 1;
    assert IndexOf(fields[2..], "symptoms") == 0;
    assert IndexOf(fields[1..], "prescription") == 0;
    Ok(Obj(fields))
  }

  /** The keys every medication must have for the plan to be shown. */
  predicate Showable(med: Value) {
    HasKey(med, "name") && HasKey(med, "dosage") && HasKey(med, "duration")
  }

  /** The error showing one medication raises: its first missing key. */
  function MedError(med: Value): PyError {
    if med.Obj? then KeyError else TypeError
  }

  /** The line shown for a medication that has the three keys. */
  function PlanLine(med: Value): string
    requires Showable(med)
  {
    "- " + Display(At(med, "name")) + ": " + Display(At(med, "dosage")) + " for " + Display(At(med, "duration"))
  }

  /** `meds[i]` is the first medication that cannot be shown. */
  predicate FirstUnshowable(meds: seq<Value>, i: int) {
    0 <= i < |meds| && !Showable(meds[i]) && forall j :: 0 <= j < i ==> Showable(meds[j])
  }

  /** The lines `- name: dosage for duration` shown for the medications, or
      the error of the first one that cannot be shown. */
  function PlanLines(meds: seq<Value>): (r: Result<seq<string>>)
    ensures r.Ok? <==> forall i :: 0 <= i < |meds| ==> Showable(meds[i])
    ensures r.Ok? ==> |r.value| == |meds|
    ensures r.Ok? ==> forall i :: 0 <= i < |meds| ==> r.value[i] == PlanLine(meds[i])
    ensures r.Err? ==> exists i :: FirstUnshowable(meds, i) && r.error == MedError(meds[i])
  {
    if meds == [] then Ok([])
    else
      var med := meds[0];
      var name :- Subscript(med, "name");
      var dosage :- Subscript(med, "dosage");
      var duration :- Subscript(med, "duration");
      var rest :- PlanLines(meds[1..]);
      assert forall i :: 1 <= i < |meds| ==> meds[i] == meds[1..][i - 1];
      Ok([PlanLine(med)] + rest)
  }

  /** The medication list under `prescription["prescription"]["medications"]`,
      as the loop over it sees it. */
  function PlanMeds(prescription: Value): Result<seq<Value>> {
    var plan :- Subscript(prescription, "prescription");
    var meds :- Subscript(plan, "medications");
    Iterate(meds)
  }

  /** A stored prescription that can be shown in full: it has a diagnosis,
      an iterable medication list, and every medication has the three keys
      the plan line reads. */
  predicate PlanReady(prescription: Value) {
    HasKey(prescription, "diagnosis") && PlanMeds(prescription).Ok?
    && forall i :: 0 <= i < |PlanMeds(prescription).value| ==> Showable(PlanMeds(prescription).value[i])
  }

  /** What `generate_prescription` shows after storing the parsed reply: the
      diagnosis, then one line per medication; any missing key or
      non-iterable list raises. */
  function TreatmentPlan(prescription: Value): (r: Result<seq<string>>)
    ensures r.Ok? ==> PlanMeds(prescription).Ok? && |r.value| == 1 + |PlanMeds(prescription).value|
  {
    var diagnosis :- Subscript(prescription, "diagnosis");
    var meds :- PlanMeds(prescription);
    var lines :- PlanLines(meds);
    Ok([Display(diagnosis)] + lines)
  }

  /** The plan is shown exactly when the prescription is ready, and then it
      is the diagnosis followed by one line per medication, in order. */
  lemma TreatmentPlanReady(prescription: Value)
    ensures TreatmentPlan(prescription).Ok? <==> PlanReady(prescription)
    ensures TreatmentPlan(prescription).Ok? ==>
      var meds := PlanMeds(prescription).value; var shown := TreatmentPlan(prescription).value;
      shown[0] == Display(At(prescription, "diagnosis"))
      && forall i :: 0 <= i < |meds| ==> shown[i + 1] == PlanLine(meds[i])
  {
    var plan := TreatmentPlan(prescription);
    if HasKey(prescription, "diagnosis") && PlanMeds(prescription).Ok? {
      var meds := PlanMeds(prescription).value;
      var lines := PlanLines(meds);
      assert plan.Ok? <==> lines.Ok?;
      if lines.Ok? {
        assert plan.value == [Display(At(prescription, "diagnosis"))] + lines.value;
      }
    }
  }

  /** Once a prescription has been shown, an exit can be saved: the record
      needs only keys the plan already read. */
  lemma ShownPrescriptionCanBeSaved(prescription: Value, symptoms: seq<Value>, history: Value)
    requires PlanReady(prescription)
    ensures HasKey(prescription, "diagnosis") && HasKey(prescription, "prescription")
    ensures SaveRecord(prescription, symptoms, history).Ok?
  {
  }

  // ---------------------------------------------------------------------
  // The follow-up loop's stopping rule

  /** `max_follow_ups`, set by the agent and never read: the loop's cap is a
      literal 3. */
  const MaxFollowUps: nat := 2
  const FollowUpCap: nat := 3

  /** The loop stops on a reply holding "No", case-sensitive, after
      stripping. */
  predicate SaysNo(reply: string) {
    Contains(Strip(reply), "No")
  }

  /** Stripping the reply first changes nothing: "No" anywhere in it stops
      the loop. */
  lemma SaysNoAnywhere(reply: string)
    ensures SaysNo(reply) <==> Contains(reply, "No")
  {
    if Contains(reply, "No") {
      ContainsStrip(reply, "No");
    }
    if SaysNo(reply) {
      ContainsUnstrip(reply, "No");
    }
  }

  /** The first round, from `k` on, whose decision says "No", or the cap. */
  function FirstNo(decisions: nat -> string, k: nat): (r: nat)
    requires k <= FollowUpCap
    ensures k <= r <= FollowUpCap
    ensures forall j :: k <= j < r ==> !SaysNo(decisions(j))
    ensures r < FollowUpCap ==> SaysNo(decisions(r))
    decreases FollowUpCap - k
  {
    if k == FollowUpCap then k
    else if SaysNo(decisions(k)) then k
    else FirstNo(decisions, k + 1)
  }

  /** How many follow-up questions the loop asks when no answer exits:
      `decisions(k)` is the reply to the k-th "needs follow-up?" prompt. */
  function FollowUpRounds(decisions: nat -> string): nat {
    FirstNo(decisions, 0)
  }

  /** The loop asks at most three follow-ups, stops at the first decision
      saying "No", and asks one follow-up per decision before it. */
  lemma FollowUpRoundsMeaning(decisions: nat -> string)
    ensures FollowUpRounds(decisions) <= FollowUpCap
    ensures forall j :: 0 <= j < FollowUpRounds(decisions) ==> !SaysNo(decisions(j))
    ensures FollowUpRounds(decisions) < FollowUpCap ==> SaysNo(decisions(FollowUpRounds(decisions)))
  {
  }

  /** The first-"No" index from `k` is the one from 0 once the rounds before
      `k` all went on. */
  lemma {:induction false} FirstNoFrom(decisions: nat -> string, k: nat)
    requires k <= FollowUpCap
    requires forall j :: 0 <= j < k ==> !SaysNo(decisions(j))
    ensures FirstNo(decisions, k) == FollowUpRounds(decisions)
    decreases k
  {
    if k > 0 {
      FirstNoFrom(decisions, k - 1);
    }
  }

  /** While the loop has not run past its rounds, the next decision stops
      it exactly when that round is the last one asked. */
  lemma NextDecision(decisions: nat -> string, k: nat)
    requires k <= FollowUpRounds(decisions) && k < FollowUpCap
    ensures SaysNo(decisions(k)) <==> k == FollowUpRounds(decisions)
  {
    FollowUpRoundsMeaning(decisions);
  }

  /** A model that always wants more questions gets three, one more than
      `max_follow_ups`. */
  lemma AlwaysYesAsksThree(decisions: nat -> string)
    requires forall k :: decisions(k) == "Yes"
    ensures FollowUpRounds(decisions) == FollowUpCap == MaxFollowUps + 1
  {
    forall k ensures !SaysNo(decisions(k)) {
      SaysNoAnywhere(decisions(k));
      if Contains("Yes", "No") {
        ContainsChar("Yes", "No", 'N');
      }
    }
  }

  // ---------------------------------------------------------------------
  // The de-duplicating merge

  /** `for x in ns: if x not in xs: xs.append(x)`, as a fold: each item is
      checked against the list as it has grown so far. */
  function MergeUnique(xs: seq<Value>, ns: seq<Value>): (r: seq<Value>)
    ensures |xs| <= |r| <= |xs| + |ns|
    ensures r[..|xs|] == xs
    decreases |ns|
  {
    if ns == [] then xs
    else
      var m := MergeUnique(xs, ns[..|ns| - 1]);
      var x := ns[|ns| - 1];
      if InList(x, m) then m else m + [x]
  }

  lemma InListGrows(x: Value, xs: seq<Value>, ys: seq<Value>)
    requires InList(x, xs)
    ensures InList(x, xs + ys)
  {
    var i :| 0 <= i < |xs| && (xs[i] == x || PyEq(xs[i], x));
    assert (xs + ys)[i] == xs[i];
  }

  /** After the merge every item is in the list. */
  lemma {:induction false} MergeCovers(xs: seq<Value>, ns: seq<Value>)
    ensures forall k :: 0 <= k < |ns| ==> InList(ns[k], MergeUnique(xs, ns))
    decreases |ns|
  {
    if ns != [] {
      var init := ns[..|ns| - 1];
      var x := ns[|ns| - 1];
      var m := MergeUnique(xs, init);
      MergeCovers(xs, init);
      var r := MergeUnique(xs, ns);
      forall k | 0 <= k < |ns| ensures InList(ns[k], r) {
        if k < |ns| - 1 {
          assert ns[k] == init[k];
          if r != m {
            InListGrows(ns[k], m, [x]);
          }
        } else if r != m {
          assert r[|m|] == x;
        }
      }
    }
  }

  /** Only items that were not yet in the list are appended, each one an
      item of `ns`. */
  lemma {:induction false} MergeAddsOnlyNew(xs: seq<Value>, ns: seq<Value>)
    ensures forall i :: |xs| <= i < |MergeUnique(xs, ns)| ==>
      MergeUnique(xs, ns)[i] in ns && !InList(MergeUnique(xs, ns)[i], MergeUnique(xs, ns)[..i])
    decreases |ns|
  {
    if ns != [] {
      var init := ns[..|ns| - 1];
      var m := MergeUnique(xs, init);
      MergeAddsOnlyNew(xs, init);
      var r := MergeUnique(xs, ns);
      forall i | |xs| <= i < |r| ensures r[i] in ns && !InList(r[i], r[..i]) {
        if i < |m| {
          assert r[i] == m[i] && r[..i] == m[..i];
          assert m[i] in init;
        } else {
          assert r[..i] == m;
        }
      }
    }
  }

  /** `a` is `b` with some items left out, order kept. */
  predicate Subsequence(a: seq<Value>, b: seq<Value>)
    decreases |b|
  {
    a == [] || (b != [] && ((a[0] == b[0] && Subsequence(a[1..], b[1..])) || Subsequence(a, b[1..])))
  }

  lemma {:induction false} SubsequenceExtend(a: seq<Value>, b: seq<Value>, y: Value)
    requires Subsequence(a, b)
    ensures Subsequence(a, b + [y])
    decreases |b|
  {
    if a != [] {
      assert (b + [y])[1..] == b[1..] + [y];
      if a[0] == b[0] && Subsequence(a[1..], b[1..]) {
        SubsequenceExtend(a[1..], b[1..], y);
      } else {
        SubsequenceExtend(a, b[1..], y);
      }
    }
  }

  lemma {:induction false} SubsequenceSnoc(a: seq<Value>, b: seq<Value>, y: Value)
    requires Subsequence(a, b)
    ensures Subsequence(a + [y], b + [y])
    decreases |b|
  {
    if a == [] {
      assert (a + [y])[1..] == [];
      assert b + [y] != [];
      if b == [] {
        assert (a + [y])[0] == (b + [y])[0];
      } else {
        SubsequenceSnoc(a, b[1..], y);
        assert (b + [y])[1..] == b[1..] + [y];
      }
    } else {
      assert (b + [y])[1..] == b[1..] + [y];
      assert (a + [y])[1..] == a[1..] + [y];
      if a[0] == b[0] && Subsequence(a[1..], b[1..]) {
        SubsequenceSnoc(a[1..], b[1..], y);
      } else {
        SubsequenceSnoc(a, b[1..], y);
      }
    }
  }

  /** The appended items keep the order they were extracted in. */
  lemma {:induction false} MergeKeepsOrder(xs: seq<Value>, ns: seq<Value>)
    ensures Subsequence(MergeUnique(xs, ns)[|xs|..], ns)
    decreases |ns|
  {
    var r := MergeUnique(xs, ns);
    if ns == [] {
      assert r[|xs|..] == [];
    } else {
      var init := ns[..|ns| - 1];
      var x := ns[|ns| - 1];
      var m := MergeUnique(xs, init);
      MergeKeepsOrder(xs, init);
      assert init + [x] == ns;
      if r == m {
        SubsequenceExtend(m[|xs|..], init, x);
      } else {
        assert r[|xs|..] == m[|xs|..] + [x];
        SubsequenceSnoc(m[|xs|..], init, x);
      }
    }
  }

  /** Items already present add nothing. */
  lemma {:induction false} MergeNothingNew(xs: seq<Value>, ns: seq<Value>)
    requires forall k :: 0 <= k < |ns| ==> InList(ns[k], xs)
    ensures MergeUnique(xs, ns) == xs
    decreases |ns|
  {
    if ns != [] {
      MergeNothingNew(xs, ns[..|ns| - 1]);
      assert InList(ns[|ns| - 1], xs);
    }
  }

  /** Merging the same items a second time changes nothing. */
  lemma MergeIdempotent(xs: seq<Value>, ns: seq<Value>)
    ensures MergeUnique(MergeUnique(xs, ns), ns) == MergeUnique(xs, ns)
  {
    MergeCovers(xs, ns);
    MergeNothingNew(MergeUnique(xs, ns), ns);
  }

  /** The same new symptom reported twice in one reply is kept once. */
  lemma RepeatedItemKeptOnce(xs: seq<Value>, s: Value)
    requires !InList(s, xs)
    ensures MergeUnique(xs, [s, s]) == xs + [s]
  {
    assert [s, s][..1] == [s];
    assert [s][..0] == [];
    var m := xs + [s];
    assert m[|xs|] == s;
  }
}
