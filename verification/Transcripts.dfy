/** Speaker-turn parsing of a flat transcript. A speaker label is one of a list
    of words at the start of a line, in any case, followed by optional white
    space, a colon and more optional white space. */
module Transcripts {
  import opened Text

  datatype Turn = Turn(speaker: string, text: string)

  function LowerChar(c: char): char {
    if 'A' <= c <= 'Z' then (c as int + 32) as char else c
  }

  function Lower(s: string): (r: string)
    ensures |r| == |s|
    ensures forall i :: 0 <= i < |s| ==> r[i] == LowerChar(s[i])
  {
    seq(|s|, i requires 0 <= i < |s| => LowerChar(s[i]))
  }

  predicate IsLetter(c: char) {
    'a' <= LowerChar(c) <= 'z'
  }

  predicate LowerWord(w: string) {
    w != "" && forall i :: 0 <= i < |w| ==> 'a' <= w[i] <= 'z'
  }

  /** After index `n` there is nothing but white space up to a colon. */
  predicate ColonAfter(s: string, n: nat)
    requires n <= |s|
  {
    var i := SkipSpaces(s, n);
    i < |s| && s[i] == ':'
  }

  /** The alternative `word` of the label group leads to a match at the head of `s`. */
  predicate Alternative(word: string, s: string) {
    |word| <= |s| && Lower(s[..|word|]) == word && ColonAfter(s, |word|)
  }

  /** Length of the label matched at the head of `s`, trying the words in
      order; zero when there is no match. */
  function FirstLabel(words: seq<string>, s: string): (n: nat)
    ensures n <= |s|
    ensures n > 0 ==> ColonAfter(s, n)
  {
    if words == [] then 0
    else if Alternative(words[0], s) then |words[0]|
    else FirstLabel(words[1..], s)
  }

  // ----- facts about one label -----

  lemma AlternativeLetters(w: string, s: string)
    requires Alternative(w, s) && LowerWord(w)
    ensures forall i :: 0 <= i < |w| ==> IsLetter(s[i])
    ensures |w| < |s| && !IsLetter(s[|w|])
  {
    var n := |w|;
    assert forall i :: 0 <= i < n ==> LowerChar(s[i]) == Lower(s[..n])[i] == w[i];
    assert s[n] == ':' || IsSpace(s[n]);
  }

  lemma {:induction false} SkipExtends(x: string, y: string, i: nat)
    requires i <= |x| && SkipSpaces(x, i) < |x|
    ensures SkipSpaces(x + y, i) == SkipSpaces(x, i)
    decreases |x| - i
  {
    if IsSpace(x[i]) { SkipExtends(x, y, i + 1); }
  }

  lemma {:induction false} SkipWithin(x: string, y: string, i: nat)
    requires i <= |x| && SkipSpaces(x + y, i) < |x|
    ensures SkipSpaces(x, i) == SkipSpaces(x + y, i)
    decreases |x| - i
  {
    assert i < |x| ==> (x + y)[i] == x[i];
    if i < |x| && IsSpace(x[i]) { SkipWithin(x, y, i + 1); }
  }

  lemma {:induction false} FirstLabelIs(words: seq<string>, s: string)
    requires forall w :: w in words ==> LowerWord(w)
    ensures FirstLabel(words, s) > 0 <==> exists w :: w in words && Alternative(w, s)
    ensures FirstLabel(words, s) > 0 ==> exists w :: w in words && Alternative(w, s) && FirstLabel(words, s) == |w|
  {
    if words != [] && !Alternative(words[0], s) {
      FirstLabelIs(words[1..], s);
      assert forall w :: w in words <==> w == words[0] || w in words[1..];
    }
  }

  /** The words that count as labels, by the side that speaks. */
  datatype Vocabulary = Vocabulary(agent: seq<string>, prospect: seq<string>) {

    function Words(): seq<string> {
      agent + prospect
    }

    /** Every label is a lower-case word, no word stands for both sides, and
        the two printed labels are among them. */
    ghost predicate Valid() {
      && (forall w :: w in Words() ==> LowerWord(w))
      && (forall w :: w in prospect ==> w !in agent)
      && "agent" in agent && "user" in prospect
    }

    // ----- the regular expression split -----

    function LabelLength(s: string): (n: nat)
      ensures n <= |s|
    {
      FirstLabel(Words(), s)
    }

    /** End of the match at the head of `s`; zero when there is none. */
    function MatchLength(s: string): (m: nat)
      ensures m <= |s|
      ensures LabelLength(s) > 0 ==> LabelLength(s) < m
    {
      var n := LabelLength(s);
      if n == 0 then 0 else SkipSpaces(s, SkipSpaces(s, n) + 1)
    }

    /** Text, label, text, label, ..., text. `cur` is the text being read, `bol`
        says whether `rest` begins a line. */
    function SplitFrom(cur: string, bol: bool, rest: string): (parts: seq<string>)
      ensures |parts| >= 1 && |parts| % 2 == 1
      decreases |rest|
    {
      if rest == "" then [cur]
      else if bol && LabelLength(rest) > 0 then
        var m := MatchLength(rest);
        [cur, rest[..LabelLength(rest)]] + SplitFrom("", rest[m - 1] == '\n', rest[m..])
      else SplitFrom(cur + [rest[0]], rest[0] == '\n', rest[1..])
    }

    function Split(transcript: string): (parts: seq<string>)
      ensures |parts| >= 1 && |parts| % 2 == 1
    {
      SplitFrom("", true, transcript)
    }

    // ----- the parser -----

    function NormalizeSpeaker(raw: string): string {
      var lower := Lower(Strip(raw));
      if lower in agent then "agent" else if lower in prospect then "prospect" else lower
    }

    /** The labelled turns of a split, from index `i` on; pairs with blank text are dropped. */
    function TurnsFrom(splits: seq<string>, i: nat): seq<Turn>
      decreases |splits| - i
    {
      if i + 1 >= |splits| then []
      else
        var text := Strip(splits[i + 1]);
        (if text != "" then [Turn(NormalizeSpeaker(splits[i]), text)] else []) + TurnsFrom(splits, i + 2)
    }

    function Parse(transcript: string): seq<Turn> {
      var turns := TurnsFrom(Split(transcript), 1);
      if turns != [] then turns
      else if Strip(transcript) == "" then []
      else [Turn("unknown", Strip(transcript))]
    }

    /** The parser with its two fallbacks. */
    method ParseTurns(transcript: string) returns (turns: seq<Turn>)
      ensures turns == Parse(transcript)
    {
      var splits := Split(transcript);
      if |splits| <= 1 {
        var cleaned := Strip(transcript);
        if cleaned == "" { return []; }
        return [Turn("unknown", cleaned)];
      }
      turns := WalkSplits(splits);
      if turns == [] {
        var cleaned := Strip(transcript);
        if cleaned != "" { return [Turn("unknown", cleaned)]; }
      }
    }

    /** What the pair at index `i` contributes. */
    lemma TurnsUnfold(splits: seq<string>, i: nat, t: Turn)
      requires i + 1 < |splits| && t == Turn(NormalizeSpeaker(splits[i]), Strip(splits[i + 1]))
      ensures TurnsFrom(splits, i) == (if t.text != "" then [t] else []) + TurnsFrom(splits, i + 2)
    {}

    lemma WalkNext(splits: seq<string>, i: nat, turns: seq<Turn>, t: Turn, later: seq<Turn>)
      requires i + 1 < |splits| && t == Turn(NormalizeSpeaker(splits[i]), Strip(splits[i + 1]))
      requires later == TurnsFrom(splits, i + 2)
      ensures (if t.text != "" then turns + [t] else turns) + later == turns + TurnsFrom(splits, i)
    {
      TurnsUnfold(splits, i, t);
      Regroup(turns, if t.text != "" then [t] else [], later);
      assert turns + [] == turns;
    }

    /** The loop over label and text pairs. */
    method WalkSplits(splits: seq<string>) returns (turns: seq<Turn>)
      requires |splits| % 2 == 1
      ensures turns == TurnsFrom(splits, 1)
    {
      turns := [];
      var i := 1;
      while i < |splits| - 1
        invariant 1 <= i <= |splits|
        invariant turns + TurnsFrom(splits, i) == TurnsFrom(splits, 1)
      {
        var speaker := NormalizeSpeaker(splits[i]);
        var text := Strip(splits[i + 1]);
        WalkNext(splits, i, turns, Turn(speaker, text), TurnsFrom(splits, i + 2));
        if text != "" { turns := turns + [Turn(speaker, text)]; }
        i := i + 2;
      }
      assert TurnsFrom(splits, i) == [];
    }

    // ----- where labels match -----

    lemma LabelIs(s: string) returns (w: string)
      requires Valid() && LabelLength(s) > 0
      ensures w in Words() && LowerWord(w) && Alternative(w, s) && LabelLength(s) == |w|
    {
      FirstLabelIs(Words(), s);
      w :| w in Words() && Alternative(w, s) && LabelLength(s) == |w|;
    }

    /** Any word that matches has the length the split uses: the order of the
        alternatives does not matter. */
    lemma LabelUnique(w: string, s: string)
      requires Valid() && w in Words() && Alternative(w, s)
      ensures LabelLength(s) == |w|
    {
      FirstLabelIs(Words(), s);
      var v := LabelIs(s);
      AlternativeLetters(v, s);
      AlternativeLetters(w, s);
    }

    lemma NoLabel(s: string)
      requires Valid() && (s == "" || !IsLetter(s[0]))
      ensures LabelLength(s) == 0
    {
      if LabelLength(s) > 0 {
        var w := LabelIs(s);
        AlternativeLetters(w, s);
        assert false;
      }
    }

    /** A match inside `x` is still the match when text follows `x`. */
    lemma MatchExtends(x: string, y: string)
      requires Valid() && LabelLength(x) > 0
      ensures LabelLength(x + y) > 0
    {
      var w := LabelIs(x);
      assert (x + y)[..|w|] == x[..|w|];
      SkipExtends(x, y, |w|);
      assert Alternative(w, x + y);
      FirstLabelIs(Words(), x + y);
    }

    /** A line feed and a letter after `x` do not complete a label begun in `x`. */
    lemma NoMatchAcross(x: string, tail: string)
      requires Valid() && LabelLength(x) == 0
      requires tail == "" || (|tail| >= 2 && tail[0] == '\n' && IsLetter(tail[1]))
      ensures LabelLength(x + tail) == 0
    {
      var s := x + tail;
      if tail == "" {
        assert s == x;
      } else if LabelLength(s) > 0 {
        var w := LabelIs(s);
        AlternativeLetters(w, s);
        var n, c := |w|, SkipSpaces(s, |w|);
        assert s[|x|] == '\n' && s[|x| + 1] == tail[1];
        assert n <= |x| && c < |x|;
        assert x[..n] == s[..n];
        SkipWithin(x, tail, n);
        assert Alternative(w, x);
        FirstLabelIs(Words(), x);
        assert false;
      }
    }

    // ----- totality -----

    lemma {:induction false} BlankSplit(cur: string, bol: bool, rest: string)
      requires Valid() && Blank(rest)
      ensures |SplitFrom(cur, bol, rest)| == 1
      decreases |rest|
    {
      NoLabel(rest);
      if rest != "" { BlankSplit(cur + [rest[0]], rest[0] == '\n', rest[1..]); }
    }

    /** Parsing yields nothing exactly for a blank transcript. */
    lemma ParseEmptyIffBlank(transcript: string)
      requires Valid()
      ensures Parse(transcript) == [] <==> Blank(transcript)
    {
      if Blank(transcript) { BlankSplit("", true, transcript); }
    }

    // ----- shape and order of the turns -----

    predicate BySide(speaker: string) {
      speaker == "agent" || speaker == "prospect"
    }

    lemma NormalizedLabel(s: string)
      requires Valid() && LabelLength(s) > 0
      ensures Known(s[..LabelLength(s)])
    {
      var w := LabelIs(s);
      AlternativeLetters(w, s);
      SpeakerOfWord(s[..|w|], w);
    }

    lemma WordStripped(raw: string, w: string)
      requires LowerWord(w) && Lower(raw) == w
      ensures Strip(raw) == raw
    {
      assert LowerChar(raw[0]) == w[0] && LowerChar(raw[|raw| - 1]) == w[|w| - 1];
      StripPadded("", raw, "");
      assert "" + raw + "" == raw;
    }

    lemma SpeakerOfWord(raw: string, w: string)
      requires Valid() && w in Words() && Lower(raw) == w
      ensures NormalizeSpeaker(raw) == if w in agent then "agent" else "prospect"
    {
      WordStripped(raw, w);
    }

    predicate Known(part: string) {
      BySide(NormalizeSpeaker(part))
    }

    predicate LabelsAt(parts: seq<string>, i: nat) {
      forall j :: i <= j < |parts| && j % 2 == 1 ==> Known(parts[j])
    }

    lemma OddCons(text: string, name: string, tail: seq<string>, p: string -> bool)
      requires p(name) && forall j :: 0 <= j < |tail| && j % 2 == 1 ==> p(tail[j])
      ensures forall j :: 0 <= j < |[text, name] + tail| && j % 2 == 1 ==> p(([text, name] + tail)[j])
    {
      var parts := [text, name] + tail;
      forall j | 0 <= j < |parts| && j % 2 == 1 ensures p(parts[j]) {
        if j >= 2 { assert parts[j] == tail[j - 2] && (j - 2) % 2 == 1; }
      }
    }

    /** One step of the split at a label. */
    lemma SplitStep(cur: string, rest: string) returns (m: nat)
      requires LabelLength(rest) > 0
      ensures m == MatchLength(rest) && 0 < m <= |rest|
      ensures SplitFrom(cur, true, rest)
              == [cur, rest[..LabelLength(rest)]] + SplitFrom("", rest[m - 1] == '\n', rest[m..])
    {
      m := MatchLength(rest);
    }

    /** Every label part of a split is the matched head of some input. */
    lemma {:induction false} SplitLabels(cur: string, bol: bool, rest: string, p: string -> bool)
      requires forall s :: LabelLength(s) > 0 ==> p(s[..LabelLength(s)])
      ensures forall j :: 0 <= j < |SplitFrom(cur, bol, rest)| && j % 2 == 1 ==> p(SplitFrom(cur, bol, rest)[j])
      decreases |rest|
    {
      if rest != "" {
        if bol && LabelLength(rest) > 0 {
          var m := SplitStep(cur, rest);
          SplitLabels("", rest[m - 1] == '\n', rest[m..], p);
          OddCons(cur, rest[..LabelLength(rest)], SplitFrom("", rest[m - 1] == '\n', rest[m..]), p);
        } else {
          SplitLabels(cur + [rest[0]], rest[0] == '\n', rest[1..], p);
        }
      }
    }

    lemma KnownLabels(transcript: string)
      requires Valid()
      ensures LabelsAt(Split(transcript), 0)
    {
      var known: string -> bool := part => Known(part);
      forall s | LabelLength(s) > 0 ensures known(s[..LabelLength(s)]) { NormalizedLabel(s); }
      SplitLabels("", true, transcript, known);
    }

    predicate WellFormed(t: Turn) {
      t.text != "" && Stripped(t.text)
    }

    lemma {:induction false} TurnsShape(splits: seq<string>, i: nat)
      requires i % 2 == 1 && LabelsAt(splits, i)
      ensures forall t :: t in TurnsFrom(splits, i) ==> WellFormed(t) && BySide(t.speaker)
      decreases |splits| - i
    {
      if i + 1 < |splits| {
        TurnsShape(splits, i + 2);
        assert BySide(NormalizeSpeaker(splits[i]));
      }
    }

    lemma {:induction false} TurnsOfTail(splits: seq<string>, cur: string, tag: string, i: nat)
      requires i >= 2
      ensures TurnsFrom([cur, tag] + splits, i) == TurnsFrom(splits, i - 2)
      decreases |splits| + 2 - i
    {
      var all := [cur, tag] + splits;
      if i + 1 < |all| {
        assert all[i] == splits[i - 2] && all[i + 1] == splits[i - 1];
        TurnsOfTail(splits, cur, tag, i + 2);
      }
    }

    /** The first label's text, then the turns of what follows it. */
    lemma TurnsOfCons(splits: seq<string>, cur: string, tag: string)
      requires |splits| >= 1
      ensures TurnsFrom([cur, tag] + splits, 1) ==
              (if Strip(splits[0]) != "" then [Turn(NormalizeSpeaker(tag), Strip(splits[0]))] else [])
              + TurnsFrom(splits, 1)
    {
      var all := [cur, tag] + splits;
      assert all[1] == tag && all[2] == splits[0];
      TurnsOfTail(splits, cur, tag, 3);
    }

    /** The stripped running text, when not blank, then the later texts. */
    function AllTexts(parts: seq<string>): seq<string>
      requires |parts| >= 1
    {
      (if Strip(parts[0]) != "" then [Strip(parts[0])] else []) + Texts(TurnsFrom(parts, 1))
    }

    ghost predicate Ordered(s: string, parts: seq<string>) {
      |parts| >= 1 && InOrder(s, AllTexts(parts))
    }

    lemma {:induction false} SplitInOrder(cur: string, bol: bool, rest: string, parts: seq<string>)
      requires parts == SplitFrom(cur, bol, rest)
      ensures Ordered(cur + rest, parts)
      decreases |rest|
    {
      if rest == "" {
        LoneText(cur);
        assert cur + rest == cur;
      } else if bol && LabelLength(rest) > 0 {
        var m := SplitStep(cur, rest);
        var tail := SplitFrom("", rest[m - 1] == '\n', rest[m..]);
        assert parts == [cur, rest[..LabelLength(rest)]] + tail;
        SplitInOrder("", rest[m - 1] == '\n', rest[m..], tail);
        AfterLabel(cur, rest, m, rest[..LabelLength(rest)], tail);
      } else {
        assert (cur + [rest[0]]) + rest[1..] == cur + rest;
        assert parts == SplitFrom(cur + [rest[0]], rest[0] == '\n', rest[1..]);
        SplitInOrder(cur + [rest[0]], rest[0] == '\n', rest[1..], parts);
      }
    }

    lemma LoneText(cur: string)
      ensures Ordered(cur, [cur])
    {
      assert Placed("", [], []);
      assert Texts(TurnsFrom([cur], 1)) == [];
      AddPiece(cur, "", [cur]);
      assert cur + "" == cur;
    }

    lemma AfterLabel(cur: string, rest: string, m: nat, tag: string, tail: seq<string>)
      requires m <= |rest| && Ordered("" + rest[m..], tail)
      ensures Ordered(cur + rest, [cur, tag] + tail)
    {
      SkipMatch(rest, m, AllTexts(tail));
      LaterTexts(cur, tag, tail);
      AddPiece(cur, rest, [cur, tag] + tail);
    }

    lemma LaterTexts(cur: string, tag: string, tail: seq<string>)
      requires |tail| >= 1
      ensures Texts(TurnsFrom([cur, tag] + tail, 1)) == AllTexts(tail)
    {
      TurnsOfCons(tail, cur, tag);
      var later := TurnsFrom(tail, 1);
      if Strip(tail[0]) != "" {
        TextsCons(Turn(NormalizeSpeaker(tag), Strip(tail[0])), later);
      } else {
        assert [] + later == later && [] + Texts(later) == Texts(later);
      }
    }

    lemma SkipMatch(rest: string, m: nat, texts: seq<string>)
      requires m <= |rest| && InOrder("" + rest[m..], texts)
      ensures InOrder(rest, texts)
    {
      assert "" + rest[m..] == rest[m..];
      InOrderSkip(rest[..m], rest[m..], texts);
      assert rest[..m] + rest[m..] == rest;
    }

    lemma AddPiece(cur: string, rest: string, parts: seq<string>)
      requires |parts| >= 1 && parts[0] == cur && InOrder(rest, Texts(TurnsFrom(parts, 1)))
      ensures InOrder(cur + rest, AllTexts(parts))
    {
      var later := Texts(TurnsFrom(parts, 1));
      if Strip(cur) != "" {
        InOrderPiece(cur, rest, later);
      } else {
        InOrderSkip(cur, rest, later);
        assert [] + later == later;
      }
    }

    lemma InOrderTail(s: string, text: string, texts: seq<string>)
      requires InOrder(s, [text] + texts)
      ensures InOrder(s, texts)
    {
      var at :| Placed(s, [text] + texts, at);
      PlacedTail(s, [text] + texts, at);
      assert ([text] + texts)[1..] == texts;
    }

    lemma TurnsInOrder(transcript: string)
      ensures InOrder(transcript, Texts(TurnsFrom(Split(transcript), 1)))
    {
      var texts := Texts(TurnsFrom(Split(transcript), 1));
      SplitInOrder("", true, transcript, Split(transcript));
      assert "" + transcript == transcript;
      var first := Strip(Split(transcript)[0]);
      if first != "" { InOrderTail(transcript, first, texts); } else { assert [] + texts == texts; }
    }

    lemma LoneInOrder(transcript: string)
      ensures InOrder(transcript, [Strip(transcript)]) && InOrder(transcript, [])
    {
      assert Placed("", [], []) && Placed(transcript, [], []);
      InOrderPiece(transcript, "", []);
      assert transcript + "" == transcript && [Strip(transcript)] + [] == [Strip(transcript)];
    }

    lemma ParsedInOrder(transcript: string)
      ensures InOrder(transcript, Texts(Parse(transcript)))
    {
      TurnsInOrder(transcript);
      LoneInOrder(transcript);
      if TurnsFrom(Split(transcript), 1) == [] {
        assert Texts(Parse(transcript)) == if Strip(transcript) == "" then [] else [Strip(transcript)];
      }
    }

    /** The turns are non-empty stripped texts by agent, prospect or (alone)
        unknown, and the texts are disjoint segments of the input in order. */
    lemma ParsedTurns(transcript: string)
      requires Valid()
      ensures forall t :: t in Parse(transcript) ==> WellFormed(t)
      ensures (forall t :: t in Parse(transcript) ==> BySide(t.speaker))
              || Parse(transcript) == [Turn("unknown", Strip(transcript))]
      ensures InOrder(transcript, Texts(Parse(transcript)))
    {
      KnownLabels(transcript);
      TurnsShape(Split(transcript), 1);
      ParsedInOrder(transcript);
    }

    // ----- canonical form -----

    /** No line of the text, other than its first, begins with a speaker label. */
    predicate LabelFree(text: string) {
      forall k :: 0 < k <= |text| && text[k - 1] == '\n' ==> LabelLength(text[k..]) == 0
    }

    predicate Canonical(t: Turn) {
      BySide(t.speaker) && WellFormed(t) && LabelFree(t.text)
    }

    predicate AllCanonical(turns: seq<Turn>) {
      forall i :: 0 <= i < |turns| ==> Canonical(turns[i])
    }

    lemma DisplayMatches(speaker: string, rest: string)
      requires Valid() && BySide(speaker) && rest != "" && !IsSpace(rest[0])
      ensures var s := Display(speaker) + ": " + rest;
              LabelLength(s) == |Display(speaker)| && MatchLength(s) == |Display(speaker)| + 2
      ensures NormalizeSpeaker(Display(speaker)) == speaker
    {
      var d := Display(speaker);
      var s := d + ": " + rest;
      var w := if speaker == "agent" then "agent" else "user";
      assert Lower(d) == w && w in Words();
      assert s[..|d|] == d && s[|d|] == ':' && s[|d| + 1] == ' ' && s[|d| + 2] == rest[0];
      assert Alternative(w, s);
      LabelUnique(w, s);
      SpeakerOfWord(d, w);
    }

    /** Reading label-free text up to the next printed turn finds no label. */
    lemma {:induction false} ReadText(cur: string, bol: bool, x: string, tail: string)
      requires Valid() && (bol ==> LabelLength(x) == 0) && LabelFree(x)
      requires tail == "" || (|tail| >= 2 && tail[0] == '\n' && IsLetter(tail[1]))
      ensures SplitFrom(cur, bol, x + tail) == SplitFrom(cur + x, if x == "" then bol else x[|x| - 1] == '\n', tail)
      decreases |x|
    {
      if x == "" {
        assert x + tail == tail && cur + x == cur;
      } else {
        if bol { NoMatchAcross(x, tail); }
        assert (x + tail)[1..] == x[1..] + tail && (x + tail)[0] == x[0];
        LabelFreeTail(x);
        ReadText(cur + [x[0]], x[0] == '\n', x[1..], tail);
        assert cur + [x[0]] + x[1..] == cur + x;
      }
    }

    lemma LabelFreeTail(x: string)
      requires LabelFree(x) && x != ""
      ensures LabelFree(x[1..])
      ensures x[0] == '\n' ==> LabelLength(x[1..]) == 0
    {
      forall k | 0 < k <= |x[1..]| && x[1..][k - 1] == '\n' ensures LabelLength(x[1..][k..]) == 0 {
        assert x[1..][k..] == x[k + 1..] && x[k + 1 - 1] == '\n';
      }
      if x[0] == '\n' { assert x[1 - 1] == '\n'; }
    }

    /** The split of a printed list gives the turns back, after the text before it. */
    predicate PrintSplits(cur: string, turns: seq<Turn>)
      requires turns != []
    {
      var parts := SplitFrom(cur, true, Print(turns));
      parts[0] == cur && TurnsFrom(parts, 1) == turns
    }

    lemma SplitPrintedLast(cur: string, t: Turn)
      requires Valid() && Canonical(t)
      ensures PrintSplits(cur, [t])
    {
      PrintedLabel(cur, t, "");
      ReadText("", false, t.text, "");
      LastText(cur, t, SplitFrom("", false, t.text + ""));
    }

    lemma SplitPrintedMore(cur: string, t: Turn, more: seq<Turn>)
      requires Valid() && Canonical(t) && more != [] && Canonical(more[0]) && PrintSplits("" + t.text + "\n", more)
      ensures PrintSplits(cur, [t] + more)
    {
      var tail := "\n" + Print(more);
      PrintedLabel(cur, t, tail);
      PrintedHead(more);
      ReadText("", false, t.text, tail);
      NextText(t.text, tail, Print(more));
      MiddleText(cur, t, more, SplitFrom("", false, t.text + tail));
      assert ([t] + more)[1..] == more;
    }

    lemma {:induction false} SplitPrinted(cur: string, turns: seq<Turn>)
      requires Valid() && turns != [] && AllCanonical(turns)
      ensures PrintSplits(cur, turns)
      decreases |turns|
    {
      var t, more := turns[0], turns[1..];
      assert turns == [t] + more;
      if more == [] {
        SplitPrintedLast(cur, t);
      } else {
        SplitPrinted("" + t.text + "\n", more);
        SplitPrintedMore(cur, t, more);
      }
    }

    lemma NextText(text: string, tail: string, printed: string)
      requires Valid() && tail == "\n" + printed && text != ""
      ensures SplitFrom("" + text, text[|text| - 1] == '\n', tail) == SplitFrom("" + text + "\n", true, printed)
    {
      NoLabel(tail);
      assert tail[1..] == printed && tail[0] == '\n';
    }

    lemma LastText(cur: string, t: Turn, rest: seq<string>)
      requires Valid() && Canonical(t) && rest == ["" + t.text]
      ensures TurnsFrom([cur, Display(t.speaker)] + rest, 1) == [t]
    {
      TurnsOfCons(rest, cur, Display(t.speaker));
      DisplayMatches(t.speaker, t.text);
      PaddedText(t.text, "");
    }

    lemma MiddleText(cur: string, t: Turn, more: seq<Turn>, rest: seq<string>)
      requires Valid() && Canonical(t)
      requires |rest| >= 1 && rest[0] == "" + t.text + "\n" && TurnsFrom(rest, 1) == more
      ensures TurnsFrom([cur, Display(t.speaker)] + rest, 1) == [t] + more
    {
      TurnsOfCons(rest, cur, Display(t.speaker));
      DisplayMatches(t.speaker, t.text);
      PaddedText(t.text, "\n");
    }

    lemma PaddedText(text: string, pad: string)
      requires text != "" && Stripped(text) && Blank(pad)
      ensures Strip("" + text + pad) == text && Strip("" + text) == text
    {
      StripPadded("", text, pad);
      StripPadded("", text, "");
      assert "" + text + "" == "" + text;
    }

    lemma PrintedLabel(cur: string, t: Turn, tail: string)
      requires Valid() && Canonical(t)
      ensures var d, body := Display(t.speaker), t.text + tail;
              SplitFrom(cur, true, d + ": " + body) == [cur, d] + SplitFrom("", false, body)
    {
      var d, body := Display(t.speaker), t.text + tail;
      var s := d + ": " + body;
      DisplayMatches(t.speaker, body);
      assert s[..|d|] == d && s[|d| + 2..] == body && s[|d| + 1] == ' ';
    }

    lemma PrintedHead(turns: seq<Turn>)
      requires turns != [] && Canonical(turns[0])
      ensures Print(turns) != "" && IsLetter(Print(turns)[0])
    {
      assert Print(turns)[0] == Display(turns[0].speaker)[0];
    }

    /** Printing canonical turns and parsing the result gives them back. */
    lemma PrintThenParse(turns: seq<Turn>)
      requires Valid() && turns != [] && AllCanonical(turns)
      ensures Parse(Print(turns)) == turns
    {
      SplitPrinted("", turns);
    }

    predicate TextsFree(parts: seq<string>) {
      forall j :: 0 <= j < |parts| && j % 2 == 0 ==> LabelFree(parts[j])
    }

    /** The text read so far holds no label that the remaining input completes. */
    predicate ReadFree(cur: string, rest: string) {
      forall k :: 0 < k < |cur| && cur[k - 1] == '\n' ==> LabelLength(cur[k..] + rest) == 0
    }

    lemma ReadFreeStops(cur: string, rest: string)
      requires Valid() && ReadFree(cur, rest)
      ensures LabelFree(cur)
    {
      forall k | 0 < k <= |cur| && cur[k - 1] == '\n' ensures LabelLength(cur[k..]) == 0 {
        if k == |cur| {
          NoLabel(cur[k..]);
        } else if LabelLength(cur[k..]) > 0 {
          MatchExtends(cur[k..], rest);
        }
      }
    }

    lemma TextsFreeCons(text: string, name: string, tail: seq<string>)
      requires LabelFree(text) && TextsFree(tail)
      ensures TextsFree([text, name] + tail)
    {
      var parts := [text, name] + tail;
      forall j | 0 <= j < |parts| && j % 2 == 0 ensures LabelFree(parts[j]) {
        if j >= 2 { assert parts[j] == tail[j - 2] && (j - 2) % 2 == 0; }
      }
    }

    /** What the split puts into a text holds no label at a later line start. */
    lemma {:induction false} SplitLabelFree(cur: string, bol: bool, rest: string)
      requires Valid() && ReadFree(cur, rest) && (cur != "" ==> bol == (cur[|cur| - 1] == '\n'))
      ensures TextsFree(SplitFrom(cur, bol, rest))
      decreases |rest|
    {
      if rest == "" {
        ReadFreeStops(cur, rest);
      } else if bol && LabelLength(rest) > 0 {
        var m := SplitStep(cur, rest);
        SplitLabelFree("", rest[m - 1] == '\n', rest[m..]);
        ReadFreeStops(cur, rest);
        TextsFreeCons(cur, rest[..LabelLength(rest)], SplitFrom("", rest[m - 1] == '\n', rest[m..]));
      } else {
        ReadFreeStep(cur, bol, rest);
        SplitLabelFree(cur + [rest[0]], rest[0] == '\n', rest[1..]);
      }
    }

    lemma ReadFreeStep(cur: string, bol: bool, rest: string)
      requires rest != "" && ReadFree(cur, rest) && (cur != "" ==> bol == (cur[|cur| - 1] == '\n'))
      requires !(bol && LabelLength(rest) > 0)
      ensures ReadFree(cur + [rest[0]], rest[1..])
    {
      var next := cur + [rest[0]];
      forall k | 0 < k < |next| && next[k - 1] == '\n' ensures LabelLength(next[k..] + rest[1..]) == 0 {
        if k < |cur| {
          assert next[k..] + rest[1..] == cur[k..] + rest;
        } else {
          assert next[k..] + rest[1..] == rest;
        }
      }
    }

    /** Stripping a label-free text leaves it label-free. */
    lemma StripLabelFree(s: string)
      requires Valid() && LabelFree(s)
      ensures LabelFree(Strip(s))
    {
      var lo := SkipSpaces(s, 0);
      var hi := TrimEnd(s, lo, |s|);
      var t := s[lo..hi];
      forall k | 0 < k <= |t| && t[k - 1] == '\n' ensures LabelLength(t[k..]) == 0 {
        var j := lo + k;
        assert s[j - 1] == '\n';
        assert s[j..] == t[k..] + s[hi..];
        if LabelLength(t[k..]) > 0 { MatchExtends(t[k..], s[hi..]); }
      }
    }

    lemma {:induction false} TurnsLabelFree(splits: seq<string>, i: nat)
      requires Valid() && i % 2 == 1 && TextsFree(splits)
      ensures forall t :: t in TurnsFrom(splits, i) ==> LabelFree(t.text)
      decreases |splits| - i
    {
      if i + 1 < |splits| {
        TurnsLabelFree(splits, i + 2);
        assert (i + 1) % 2 == 0;
        StripLabelFree(splits[i + 1]);
      }
    }

    predicate Labelled(turns: seq<Turn>) {
      turns != [] && forall i :: 0 <= i < |turns| ==> BySide(turns[i].speaker)
    }

    lemma LabelledIsCanonical(transcript: string)
      requires Valid() && Labelled(Parse(transcript))
      ensures AllCanonical(Parse(transcript))
    {
      ParsedTurns(transcript);
      SplitLabelFree("", true, transcript);
      TurnsLabelFree(Split(transcript), 1);
    }

    /** The labelled results of the parser are exactly the non-empty lists of
        canonical turns. */
    lemma LabelledIffCanonical(turns: seq<Turn>)
      requires Valid()
      ensures (Labelled(turns) && exists transcript :: Parse(transcript) == turns)
              <==> turns != [] && AllCanonical(turns)
    {
      if turns != [] && AllCanonical(turns) {
        PrintThenParse(turns);
      } else if Labelled(turns) && exists transcript :: Parse(transcript) == turns {
        var transcript :| Parse(transcript) == turns;
        LabelledIsCanonical(transcript);
      }
    }

    /** Parse, print, parse: the second parse gives the first result back. */
    lemma ParsePrintParse(transcript: string)
      requires Valid() && Labelled(Parse(transcript))
      ensures Parse(Print(Parse(transcript))) == Parse(transcript)
    {
      LabelledIsCanonical(transcript);
      PrintThenParse(Parse(transcript));
    }
  }

  const SPEAKERS := Vocabulary(["agent", "ai", "assistant", "bot"], ["user", "prospect", "customer", "human"])

  /** The eight labels of the regular expression form a valid vocabulary. */
  lemma SpeakersValid()
    ensures SPEAKERS.Valid()
  {
    AgentWords();
    ProspectWords();
    assert SPEAKERS.agent[0] == "agent" && SPEAKERS.prospect[0] == "user";
  }

  lemma AgentWords()
    ensures forall w :: w in SPEAKERS.agent ==> LowerWord(w) && w[0] <= 'b'
  {}

  lemma ProspectWords()
    ensures forall w :: w in SPEAKERS.prospect ==> LowerWord(w) && w[0] > 'b'
  {}

  // ----- texts in order -----

  function Texts(turns: seq<Turn>): (texts: seq<string>)
    ensures |texts| == |turns|
    ensures forall i :: 0 <= i < |turns| ==> texts[i] == turns[i].text
  {
    seq(|turns|, i requires 0 <= i < |turns| => turns[i].text)
  }

  lemma Regroup<T>(a: seq<T>, b: seq<T>, c: seq<T>)
    ensures (a + b) + c == a + (b + c)
  {}

  lemma TextsCons(t: Turn, turns: seq<Turn>)
    ensures Texts([t] + turns) == [t.text] + Texts(turns)
  {}

  predicate At(s: string, i: nat, piece: string) {
    i + |piece| <= |s| && s[i..i + |piece|] == piece
  }

  /** The i-th text sits at index `at[i]`, and each ends before the next begins. */
  ghost predicate Placed(s: string, texts: seq<string>, at: seq<nat>) {
    && |at| == |texts|
    && (forall i :: 0 <= i < |texts| ==> At(s, at[i], texts[i]))
    && (forall i, j :: 0 <= i < j < |texts| ==> at[i] + |texts[i]| <= at[j])
  }

  /** The texts occur in `s` one after another without overlap. */
  ghost predicate InOrder(s: string, texts: seq<string>) {
    exists at :: Placed(s, texts, at)
  }

  lemma PlacedShift(a: string, s: string, texts: seq<string>, at: seq<nat>) returns (at': seq<nat>)
    requires Placed(s, texts, at)
    ensures Placed(a + s, texts, at')
    ensures forall i :: 0 <= i < |at| ==> at'[i] == at[i] + |a|
  {
    at' := seq(|at|, i requires 0 <= i < |at| => at[i] + |a|);
    forall i | 0 <= i < |texts| ensures At(a + s, at'[i], texts[i]) {
      assert At(s, at[i], texts[i]);
      assert (a + s)[at'[i]..at'[i] + |texts[i]|] == s[at[i]..at[i] + |texts[i]|];
    }
  }

  lemma InOrderSkip(a: string, s: string, texts: seq<string>)
    requires InOrder(s, texts)
    ensures InOrder(a + s, texts)
  {
    var at :| Placed(s, texts, at);
    var at' := PlacedShift(a, s, texts, at);
  }

  lemma PlacedTail(s: string, all: seq<string>, at: seq<nat>)
    requires all != [] && Placed(s, all, at)
    ensures Placed(s, all[1..], at[1..])
  {
    forall i | 0 <= i < |all[1..]| ensures At(s, at[1..][i], all[1..][i]) {
      assert At(s, at[i + 1], all[i + 1]);
    }
  }

  lemma PlacedCons(s: string, lo: nat, text: string, texts: seq<string>, at: seq<nat>)
    requires At(s, lo, text) && Placed(s, texts, at) && forall i :: 0 <= i < |at| ==> lo + |text| <= at[i]
    ensures Placed(s, [text] + texts, [lo] + at)
  {
    var all, all' := [text] + texts, [lo] + at;
    forall i | 0 <= i < |all| ensures At(s, all'[i], all[i]) {
      if i > 0 { assert At(s, at[i - 1], texts[i - 1]); }
    }
    forall i, j | 0 <= i < j < |all| ensures all'[i] + |all[i]| <= all'[j] {
      if i > 0 { assert at[i - 1] + |texts[i - 1]| <= at[j - 1]; }
    }
  }

  /** A piece may contribute its stripped text before the texts of what follows it. */
  lemma InOrderPiece(piece: string, s: string, texts: seq<string>)
    requires InOrder(s, texts)
    ensures InOrder(piece + s, [Strip(piece)] + texts)
  {
    var at :| Placed(s, texts, at);
    var at' := PlacedShift(piece, s, texts, at);
    var lo := SkipSpaces(piece, 0);
    var hi := TrimEnd(piece, lo, |piece|);
    assert (piece + s)[lo..hi] == Strip(piece);
    PlacedCons(piece + s, lo, Strip(piece), texts, at');
  }

  // ----- printing -----

  function Display(speaker: string): string {
    if speaker == "agent" then "Agent" else "User"
  }

  /** One `Label: text` group per turn, separated by line feeds. */
  function Print(turns: seq<Turn>): string {
    if turns == [] then ""
    else
      var tail := if |turns| == 1 then "" else "\n" + Print(turns[1..]);
      Display(turns[0].speaker) + ": " + (turns[0].text + tail)
  }
}
