/** `is_exit_command`, which both interview agents run on every answer
    before recording it: lower-case and strip the text, then look for an
    exact exit word or one of two phrases built from it. */
module ExitCommand {
  import opened PyStr

  /** The closed list of exit words, in the order the search visits them. */
  const Commands: seq<string> := ["exit", "quit", "end", "stop", "bye", "goodbye", "terminate"]

  /** `text.lower().strip()` */
  function Normalize(text: string): string {
    Strip(Lower(text))
  }

  /** The two phrase patterns the search tries for one exit word. */
  predicate PhraseMatch(t: string, cmd: string) {
    Contains(t, "want to " + cmd) || Contains(t, cmd + " consultation")
  }

  /** An already normalised text names an exit: it is an exit word or
      holds a phrase for one. */
  predicate ExitWord(t: string) {
    t in Commands || exists i :: 0 <= i < |Commands| && PhraseMatch(t, Commands[i])
  }

  /** The meaning of `is_exit_command`: the text is not empty, and after
      normalisation it names an exit. */
  predicate IsExit(text: string) {
    text != "" && ExitWord(Strip(Lower(text)))
  }

  /** The source's search: an early return on the exact test, then one loop
      over the exit words trying both phrases of each. */
  method IsExitCommand(text: string) returns (r: bool)
    ensures r == IsExit(text)
  {
    if text == "" {
      return false;
    }
    var t := Lower(text);
    t := Strip(t);
    if t in Commands {
      return true;
    }
    var i := 0;
    while i < |Commands|
      invariant 0 <= i <= |Commands|
      invariant forall j :: 0 <= j < i ==> !PhraseMatch(t, Commands[j])
    {
      var cmd := Commands[i];
      if Contains(t, "want to " + cmd) || Contains(t, cmd + " consultation") {
        return true;
      }
      i := i + 1;
    }
    return false;
  }

  /** Lower-casing keeps white space white space. */
  lemma LowerAllSpace(s: string)
    requires AllSpace(s)
    ensures AllSpace(Lower(s))
  {
  }

  /** Text made only of white space (the empty text included) is never an
      exit command: it normalises to the empty text, which matches nothing. */
  lemma BlankIsNotExit(text: string)
    requires AllSpace(text)
    ensures !IsExit(text)
  {
    LowerAllSpace(text);
    StripPadded(Lower(text), [], []);
    assert Lower(text) + [] + [] == Lower(text);
    var t := Normalize(text);
    assert t == [];
    forall i | 0 <= i < |Commands| ensures !PhraseMatch(t, Commands[i]) {
      assert !StartsWith(t, "want to " + Commands[i]);
      assert !StartsWith(t, Commands[i] + " consultation");
    }
  }

  /** An exit word typed in any case and with any white space around it is
      an exit command. */
  lemma PaddedCommandIsExit(pre: string, word: string, post: string)
    requires AllSpace(pre) && AllSpace(post)
    requires Lower(word) in Commands
    ensures IsExit(pre + word + post)
  {
    var w := Lower(word);
    LowerAppend(pre + word, post);
    LowerAppend(pre, word);
    LowerAllSpace(pre);
    LowerAllSpace(post);
    assert w != [] && !IsSpace(w[0]) && !IsSpace(w[|w| - 1]);
    StripPadded(Lower(pre), w, Lower(post));
    assert |pre + word + post| >= |word| == |w| > 0;
  }

  /** A phrase "want to <word>" anywhere in the text, whatever surrounds it,
      makes the text an exit command: a substring test, so "i want to
      endure" counts. */
  lemma WantToPhraseIsExit(pre: string, i: nat, post: string)
    requires i < |Commands|
    requires pre == Lower(pre) && post == Lower(post)
    ensures IsExit(pre + ("want to " + Commands[i]) + post)
  {
    var p := "want to " + Commands[i];
    var text := pre + p + post;
    LowerAppend(pre + p, post);
    LowerAppend(pre, p);
    assert Lower(p) == p;
    assert Lower(text) == text;
    assert Contains(p, p) by { assert StartsWith(p, p); }
    ContainsInside(pre, p, post, p);
    ContainsStrip(text, p);
    assert PhraseMatch(Normalize(text), Commands[i]);
  }

  /** The same for "<word> consultation". */
  lemma ConsultationPhraseIsExit(pre: string, i: nat, post: string)
    requires i < |Commands|
    requires pre == Lower(pre) && post == Lower(post)
    ensures IsExit(pre + (Commands[i] + " consultation") + post)
  {
    var p := Commands[i] + " consultation";
    var text := pre + p + post;
    LowerAppend(pre + p, post);
    LowerAppend(pre, p);
    assert Lower(p) == p;
    assert Lower(text) == text;
    assert Contains(p, p) by { assert StartsWith(p, p); }
    ContainsInside(pre, p, post, p);
    ContainsStrip(text, p);
    assert PhraseMatch(Normalize(text), Commands[i]);
  }

  /** The test ignores case: text and its lower-case form are exit commands
      alike. */
  lemma ExitIgnoresCase(text: string)
    ensures IsExit(text) == IsExit(Lower(text))
  {
    LowerIdempotent(text);
  }

  /** A text without 'w' and without 'c' can hold neither phrase, so only an
      exact exit word makes it an exit command. */
  lemma NoPhraseWithoutWAndC(t: string)
    requires 'w' !in t && 'c' !in t
    ensures forall i :: 0 <= i < |Commands| ==> !PhraseMatch(t, Commands[i])
  {
    forall i | 0 <= i < |Commands| ensures !PhraseMatch(t, Commands[i]) {
      var want := "want to " + Commands[i];
      var cons := Commands[i] + " consultation";
      assert want[0] == 'w';
      if Contains(t, want) { ContainsChar(t, want, 'w'); }
      assert cons[|Commands[i]| + 1] == 'c';
      if Contains(t, cons) { ContainsChar(t, cons, 'c'); }
    }
  }

  /** A lower-case text without surrounding white space is its own
      normal form. */
  lemma NormalizePlain(text: string)
    requires text == [] || (!IsSpace(text[0]) && !IsSpace(text[|text| - 1]))
    requires Lower(text) == text
    ensures Normalize(text) == text
  {
    StripPadded([], text, []);
    assert [] + text + [] == text;
  }

  /** A lower-case text without surrounding white space, without 'w' and
      without 'c', is an exit command exactly when it is an exit word. */
  lemma PlainTextIsExitOnlyAsWord(text: string)
    requires text != [] && !IsSpace(text[0]) && !IsSpace(text[|text| - 1])
    requires Lower(text) == text && 'w' !in text && 'c' !in text
    ensures IsExit(text) <==> text in Commands
  {
    NormalizePlain(text);
    NoPhraseWithoutWAndC(text);
  }

  /** Phrases count anywhere in the text: "i want to endure" is an exit
      command, since "want to end" occurs in it. */
  lemma WantToEndureIsExit(text: string)
    requires text == "i want to endure"
    ensures IsExit(text)
  {
    assert text == "i " + ("want to " + Commands[2]) + "ure";
    assert Lower("i ") == "i ";
    assert Lower("ure") == "ure";
    WantToPhraseIsExit("i ", 2, "ure");
  }

  lemma EndConsultationIsExit(text: string)
    requires text == "please end consultation"
    ensures IsExit(text)
  {
    assert text == "please " + (Commands[2] + " consultation") + "";
    ConsultationPhraseIsExit("please ", 2, "");
  }

  lemma PaddedGoodbyeIsExit(text: string)
    requires text == "  GoodBye "
    ensures IsExit(text)
  {
    assert Lower("GoodBye") == Commands[5];
    assert text == "  " + "GoodBye" + " ";
    PaddedCommandIsExit("  ", "GoodBye", " ");
  }

  /** A word that merely begins like an exit word is no exit command. */
  lemma StoppingIsNotExit(text: string)
    requires text == "stopping by later"
    ensures !IsExit(text)
  {
    assert Lower(text) == text;
    assert text !in Commands;
    PlainTextIsExitOnlyAsWord(text);
  }
}
