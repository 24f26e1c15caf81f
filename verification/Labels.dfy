/** The speaker labels of the transcript parser, word by word. */
module Labels {
  import opened Text
  import opened Transcripts

  predicate AgentWord(w: string) {
    w == "agent" || w == "ai" || w == "assistant" || w == "bot"
  }

  predicate ProspectWord(w: string) {
    w == "user" || w == "prospect" || w == "customer" || w == "human"
  }

  lemma WordsAre(w: string)
    ensures w in SPEAKERS.agent <==> AgentWord(w)
    ensures w in SPEAKERS.prospect <==> ProspectWord(w)
  {
    assert SPEAKERS.agent == ["agent", "ai", "assistant", "bot"];
    assert SPEAKERS.prospect == ["user", "prospect", "customer", "human"];
    assert AgentWord(w) ==>
        w == SPEAKERS.agent[0] || w == SPEAKERS.agent[1] || w == SPEAKERS.agent[2] || w == SPEAKERS.agent[3];
    assert ProspectWord(w) ==>
        || w == SPEAKERS.prospect[0] || w == SPEAKERS.prospect[1]
        || w == SPEAKERS.prospect[2] || w == SPEAKERS.prospect[3];
  }

  lemma WordsIn(w: string)
    requires AgentWord(w) || ProspectWord(w)
    ensures w in SPEAKERS.Words() && LowerWord(w)
  {
    SpeakersValid();
    WordsAre(w);
  }

  lemma LabelWord(w: string)
    requires w in SPEAKERS.Words()
    ensures AgentWord(w) || ProspectWord(w)
  {
    WordsAre(w);
    assert w in SPEAKERS.agent || w in SPEAKERS.prospect;
  }

  // ----- a label, white space, a colon, white space, a text -----

  /** White space behind a first part is skipped. */
  lemma {:induction false} SkipAfter(h: string, a: string, x: string, i: nat)
    requires Blank(a) && |h| <= i <= |h| + |a| && (x == "" || !IsSpace(x[0]))
    ensures SkipSpaces(h + a + x, i) == |h| + |a|
    decreases |h| + |a| - i
  {
    var s := h + a + x;
    if i < |h| + |a| {
      assert s[i] == a[i - |h|];
      SkipAfter(h, a, x, i + 1);
    } else if x != "" {
      assert s[i] == x[0];
    }
  }

  /** The label, up to the colon, and the white space after it. */
  lemma LabelMatches(w: string, a: string, b: string, x: string)
    requires AgentWord(Lower(w)) || ProspectWord(Lower(w))
    requires Blank(a) && Blank(b) && x != "" && !IsSpace(x[0])
    ensures var s := w + a + ":" + b + x;
            && SPEAKERS.LabelLength(s) == |w| && SPEAKERS.MatchLength(s) == |w| + |a| + 1 + |b|
            && s[..|w|] == w && s[|w| + |a| + 1 + |b|..] == x
  {
    var s := w + a + ":" + b + x;
    var v := Lower(w);
    WordsIn(v);
    SpeakersValid();
    assert s == w + a + (":" + b + x) && (":" + b + x)[0] == ':';
    SkipAfter(w, a, ":" + b + x, |w|);
    assert s[..|w|] == w && s[|w| + |a|] == ':';
    assert SPEAKERS.Valid() && Alternative(v, s);
    SPEAKERS.LabelUnique(v, s);
    assert s == (w + a + ":") + b + x;
    SkipAfter(w + a + ":", b, x, |w| + |a| + 1);
  }

  /** One labelled turn, in any case and with any white space around the colon,
      is parsed as a turn of the label's side. */
  lemma LabelledTurn(w: string, a: string, b: string, x: string)
    requires AgentWord(Lower(w)) || ProspectWord(Lower(w))
    requires Blank(a) && Blank(b) && x != "" && Stripped(x) && SPEAKERS.LabelFree(x)
    requires SPEAKERS.LabelLength(x) == 0
    ensures SPEAKERS.Parse(w + a + ":" + b + x) == [Turn(if AgentWord(Lower(w)) then "agent" else "prospect", x)]
  {
    SplitLabelled(w, a, b, x);
    OneTurn(w, x);
  }

  lemma SplitLabelled(w: string, a: string, b: string, x: string)
    requires AgentWord(Lower(w)) || ProspectWord(Lower(w))
    requires Blank(a) && Blank(b) && x != "" && Stripped(x) && SPEAKERS.LabelFree(x)
    requires SPEAKERS.LabelLength(x) == 0
    ensures SPEAKERS.Split(w + a + ":" + b + x) == ["", w] + [x]
  {
    var s := w + a + ":" + b + x;
    LabelMatches(w, a, b, x);
    var m := SPEAKERS.SplitStep("", s);
    TextAlone(s[m - 1] == '\n', x);
  }

  lemma TextAlone(bol: bool, x: string)
    requires SPEAKERS.LabelFree(x) && SPEAKERS.LabelLength(x) == 0 && x != ""
    ensures SPEAKERS.SplitFrom("", bol, x) == [x]
  {
    SpeakersValid();
    SPEAKERS.ReadText("", bol, x, "");
    assert x + "" == x && "" + x == x;
  }

  lemma OneTurn(w: string, x: string)
    requires (AgentWord(Lower(w)) || ProspectWord(Lower(w))) && x != "" && Stripped(x)
    ensures SPEAKERS.TurnsFrom(["", w] + [x], 1) == [Turn(if AgentWord(Lower(w)) then "agent" else "prospect", x)]
  {
    SpeakersValid();
    SPEAKERS.TurnsOfCons([x], "", w);
    StripPadded("", x, "");
    assert "" + x + "" == x && Strip(x) == x;
    WordsIn(Lower(w));
    WordsAre(Lower(w));
    SPEAKERS.SpeakerOfWord(w, Lower(w));
  }

  // ----- any other word -----

  const UPPER := "ABCDEFGHIJKLMNOPQRSTUVWXYZ"
  const LOWER := "abcdefghijklmnopqrstuvwxyz"

  /** Case folding: each capital letter to its small letter, anything else to itself. */
  lemma LowerIs(c: char)
    ensures forall k :: 0 <= k < 26 ==> LowerChar(UPPER[k]) == LOWER[k]
    ensures c !in UPPER ==> LowerChar(c) == c
  {
    assert forall k :: 0 <= k < 26 ==> UPPER[k] as int == 65 + k && LOWER[k] as int == 97 + k;
    if 'A' <= c <= 'Z' { assert UPPER[c as int - 65] == c; }
  }

  /** No label matches at a word of letters that is none of the eight. */
  lemma OtherWordNoLabel(w: string, rest: string)
    requires forall i :: 0 <= i < |w| ==> IsLetter(w[i])
    requires !AgentWord(Lower(w)) && !ProspectWord(Lower(w)) && (rest == "" || !IsLetter(rest[0]))
    ensures SPEAKERS.LabelLength(w + rest) == 0
  {
    var s := w + rest;
    SpeakersValid();
    if SPEAKERS.LabelLength(s) > 0 {
      var v := SPEAKERS.LabelIs(s);
      AlternativeLetters(v, s);
      assert forall i :: 0 <= i < |w| ==> s[i] == w[i];
      assert rest != "" ==> s[|w|] == rest[0];
      assert |v| == |w|;
      assert s[..|w|] == w;
      assert Lower(w) == v;
      LabelWord(v);
      assert false;
    }
  }

  /** So a line with such a word before its colon is no turn of anybody. */
  lemma OtherWordIsText(w: string, x: string)
    requires w != "" && forall i :: 0 <= i < |w| ==> IsLetter(w[i])
    requires !AgentWord(Lower(w)) && !ProspectWord(Lower(w))
    requires x != "" && Stripped(x) && SPEAKERS.LabelFree(x)
    ensures SPEAKERS.Parse(w + ": " + x) == [Turn("unknown", w + ": " + x)]
  {
    var s := w + ": " + x;
    SpeakersValid();
    OtherWordNoLabel(w, ": " + x);
    assert s == w + (": " + x);
    LineFree(w, x);
    SPEAKERS.ReadText("", true, s, "");
    assert s + "" == s && "" + s == s;
    assert SPEAKERS.Split(s) == [s];
    assert s[0] == w[0] && s[|s| - 1] == x[|x| - 1];
    StripPadded("", s, "");
    assert SPEAKERS.TurnsFrom([s], 1) == [];
  }

  lemma LineFree(w: string, x: string)
    requires (forall i :: 0 <= i < |w| ==> IsLetter(w[i])) && SPEAKERS.LabelFree(x)
    ensures SPEAKERS.LabelFree(w + ": " + x)
  {
    var s := w + ": " + x;
    forall j | 0 <= j < |w| + 2 ensures s[j] != '\n' {
      assert s[j] == if j < |w| then w[j] else if j == |w| then ':' else ' ';
    }
    forall k | 0 < k <= |s| && s[k - 1] == '\n' ensures SPEAKERS.LabelLength(s[k..]) == 0 {
      assert s[k..] == x[k - |w| - 2..] && x[k - |w| - 2 - 1] == '\n';
    }
  }
}
