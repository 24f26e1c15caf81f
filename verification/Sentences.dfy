/** White-space normalisation and the sentence cap used when a call's context
    is built. The regular expression splits after `.`, `!` or `?` followed by
    white space, or at runs of line feeds. */
module Sentences {
  import opened Text

  predicate IsWord(w: string) {
    w != "" && forall i :: 0 <= i < |w| ==> !IsSpace(w[i])
  }

  predicate AreWords(ws: seq<string>) {
    forall i :: 0 <= i < |ws| ==> IsWord(ws[i])
  }

  /** `" ".join(parts)`. */
  function Join(parts: seq<string>): string {
    if parts == [] then "" else if |parts| == 1 then parts[0] else parts[0] + " " + Join(parts[1..])
  }

  function WordEnd(s: string, i: nat): (j: nat)
    requires i <= |s|
    ensures i <= j <= |s|
    ensures forall k :: i <= k < j ==> !IsSpace(s[k])
    ensures j < |s| ==> IsSpace(s[j])
    decreases |s| - i
  {
    if i < |s| && !IsSpace(s[i]) then WordEnd(s, i + 1) else i
  }

  /** `s.split()`: the maximal runs of non-space characters. */
  function Words(s: string): (ws: seq<string>)
    ensures AreWords(ws)
    decreases |s|
  {
    var lo := SkipSpaces(s, 0);
    if lo == |s| then []
    else
      var hi := WordEnd(s, lo);
      assert lo < hi;
      [s[lo..hi]] + Words(s[hi..])
  }

  function Normalize(s: string): string {
    Join(Words(s))
  }

  predicate EndsSentence(c: char) {
    c in ".!?"
  }

  /** Length of the boundary at the head of `rest`, zero when there is none;
      `after` says whether the character before it is `.`, `!` or `?`. */
  function Boundary(after: bool, rest: string): (m: nat)
    ensures m <= |rest|
  {
    if rest == "" then 0
    else if after && IsSpace(rest[0]) then SkipSpaces(rest, 0)
    else LineFeeds(rest)
  }

  function LineFeeds(rest: string): (m: nat)
    ensures m <= |rest|
  {
    if rest != "" && rest[0] == '\n' then 1 + LineFeeds(rest[1..]) else 0
  }

  /** The regular expression split, left to right; `cur` is the segment being read. */
  function SplitFrom(cur: string, after: bool, rest: string): (parts: seq<string>)
    ensures |parts| >= 1
    decreases |rest|
  {
    if rest == "" then [cur]
    else
      var m := Boundary(after, rest);
      if m > 0 then [cur] + SplitFrom("", EndsSentence(rest[m - 1]), rest[m..])
      else SplitFrom(cur + [rest[0]], EndsSentence(rest[0]), rest[1..])
  }

  /** The segments that are not blank, stripped. */
  function Cleaned(parts: seq<string>): seq<string> {
    if parts == [] then []
    else (if Strip(parts[0]) != "" then [Strip(parts[0])] else []) + Cleaned(parts[1..])
  }

  function Prefix<T>(s: seq<T>, n: nat): seq<T> {
    if n < |s| then s[..n] else s
  }

  /** The sentence cap: at most `max` sentences of the normalised text. */
  function Cap(text: string, max: nat): string {
    var normalized := Normalize(text);
    if normalized == "" then ""
    else
      var segments := Cleaned(SplitFrom("", false, normalized));
      if segments == [] then normalized else Join(Prefix(segments, max))
  }

  // ----- the word-level view -----

  predicate Ends(w: string) {
    w != "" && EndsSentence(w[|w| - 1])
  }

  /** The words of the first `n` sentences. */
  function Take(ws: seq<string>, n: nat): seq<string> {
    if ws == [] || n == 0 then []
    else [ws[0]] + Take(ws[1..], if Ends(ws[0]) then n - 1 else n)
  }

  function Count(ws: seq<string>): (c: nat)
    ensures c == 0 <==> ws == []
  {
    if ws == [] then 0
    else if Ends(ws[0]) || |ws| == 1 then 1 + Count(ws[1..])
    else Count(ws[1..])
  }

  /** Number of sentences of a text. */
  function Sentences(text: string): nat {
    Count(Words(text))
  }

  /** The sentences of a word list, as strings. */
  function Segments(ws: seq<string>): (segs: seq<string>)
    ensures |segs| == Count(ws)
    ensures ws != [] ==> segs != []
  {
    if ws == [] then []
    else if Ends(ws[0]) || |ws| == 1 then [ws[0]] + Segments(ws[1..])
    else
      var r := Segments(ws[1..]);
      [ws[0] + " " + r[0]] + r[1..]
  }

  lemma {:induction false} JoinWords(ws: seq<string>)
    requires AreWords(ws) && ws != []
    ensures Join(ws) != "" && !IsSpace(Join(ws)[0])
  {
    assert ws[0] != "";
  }

  lemma WordAhead(w: string, rest: string)
    requires IsWord(w) && (rest == "" || IsSpace(rest[0]))
    ensures SkipSpaces(w + rest, 0) == 0 && WordEnd(w + rest, 0) == |w|
  {
    var s := w + rest;
    assert s[0] == w[0];
    assert forall k :: 0 <= k < |w| ==> s[k] == w[k];
    if rest != "" { assert s[|w|] == rest[0]; }
  }

  lemma LeadingSpace(s: string)
    ensures Words(" " + s) == Words(s)
  {
    SkipShift(" ", s, 0);
    var lo := SkipSpaces(s, 0);
    if lo < |s| {
      EndShift(" ", s, lo);
      ShiftedSlices(s, lo, WordEnd(s, lo));
    }
  }

  lemma ShiftedSlices(s: string, lo: nat, hi: nat)
    requires lo <= hi <= |s|
    ensures (" " + s)[lo + 1..hi + 1] == s[lo..hi] && (" " + s)[hi + 1..] == s[hi..]
  {}

  lemma {:induction false} SkipShift(a: string, s: string, i: nat)
    requires a == " " && i <= |s|
    ensures SkipSpaces(a + s, i + 1) == SkipSpaces(s, i) + 1
    ensures SkipSpaces(a + s, 0) == SkipSpaces(a + s, 1)
    decreases |s| - i
  {
    assert (a + s)[0] == ' ';
    if i < |s| && IsSpace(s[i]) { SkipShift(a, s, i + 1); }
  }

  lemma {:induction false} EndShift(a: string, s: string, i: nat)
    requires |a| == 1 && i <= |s|
    ensures WordEnd(a + s, i + 1) == WordEnd(s, i) + 1
    decreases |s| - i
  {
    if i < |s| && !IsSpace(s[i]) { EndShift(a, s, i + 1); }
  }

  lemma WordsCons(w: string, rest: string)
    requires IsWord(w) && (rest == "" || IsSpace(rest[0]))
    ensures Words(w + rest) == [w] + Words(rest)
  {
    WordAhead(w, rest);
    assert (w + rest)[0..|w|] == w && (w + rest)[|w|..] == rest;
  }

  /** Joining words and splitting again gives the words back. */
  lemma {:induction false} WordsOfJoin(ws: seq<string>)
    requires AreWords(ws)
    ensures Words(Join(ws)) == ws
  {
    if ws != [] {
      var rest := if |ws| == 1 then "" else " " + Join(ws[1..]);
      assert Join(ws) == ws[0] + rest;
      WordsCons(ws[0], rest);
      if |ws| > 1 {
        WordsOfJoin(ws[1..]);
        LeadingSpace(Join(ws[1..]));
      }
    }
  }

  // ----- the regular expression against the word-level view -----

  /** Reading a word adds it to the current segment. */
  lemma {:induction false} ReadWord(cur: string, after: bool, w: string, rest: string)
    requires forall i :: 0 <= i < |w| ==> !IsSpace(w[i])
    ensures w != "" ==> SplitFrom(cur, after, w + rest) == SplitFrom(cur + w, Ends(w), rest)
    decreases |w|
  {
    if w != "" {
      var s := w + rest;
      assert s[0] == w[0] && s[1..] == w[1..] + rest;
      assert Boundary(after, s) == 0;
      if |w| == 1 {
        assert w[1..] + rest == rest;
        assert w == [w[0]];
      } else {
        ReadWord(cur + [w[0]], EndsSentence(w[0]), w[1..], rest);
        assert cur + [w[0]] + w[1..] == cur + w;
        assert Ends(w[1..]) == Ends(w);
      }
    }
  }

  lemma {:induction false} SplitWords(cur: string, after: bool, ws: seq<string>)
    requires AreWords(ws) && ws != []
    ensures var segs := Segments(ws);
            SplitFrom(cur, after, Join(ws)) == [cur + segs[0]] + segs[1..]
    decreases |ws|
  {
    var w := ws[0];
    var rest := if |ws| == 1 then "" else " " + Join(ws[1..]);
    assert Join(ws) == w + rest;
    ReadWord(cur, after, w, rest);
    if |ws| > 1 {
      var more := ws[1..];
      if Ends(w) {
        SplitWords("", false, more);
        SplitClosed(cur, w, more);
        assert Segments(ws)[1..] == Segments(more);
      } else {
        SplitWords(cur + w + " ", false, more);
        SplitOpen(cur, w, more);
        assert Segments(ws)[1..] == Segments(more)[1..];
      }
    }
  }

  /** The space after a closing word ends the segment. */
  lemma SplitClosed(cur: string, w: string, more: seq<string>)
    requires AreWords(more) && more != [] && Ends(w)
    requires SplitFrom("", false, Join(more)) == ["" + Segments(more)[0]] + Segments(more)[1..]
    ensures SplitFrom(cur + w, true, " " + Join(more)) == [cur + w] + Segments(more)
  {
    var rest, segs := " " + Join(more), Segments(more);
    JoinWords(more);
    assert rest[1..] == Join(more) && rest[0] == ' ';
    assert SkipSpaces(rest, 0) == 1;
    assert "" + segs[0] == segs[0] && [segs[0]] + segs[1..] == segs;
  }

  /** The space after any other word is read into the segment. */
  lemma SplitOpen(cur: string, w: string, more: seq<string>)
    requires AreWords(more) && more != []
    requires SplitFrom(cur + w + " ", false, Join(more)) == [cur + w + " " + Segments(more)[0]] + Segments(more)[1..]
    ensures SplitFrom(cur + w, false, " " + Join(more)) == [cur + (w + " " + Segments(more)[0])] + Segments(more)[1..]
  {
    var rest, segs := " " + Join(more), Segments(more);
    assert rest[1..] == Join(more) && rest[0] == ' ';
    assert cur + w + " " + segs[0] == cur + (w + " " + segs[0]);
  }

  lemma {:induction false} SegmentsClean(ws: seq<string>)
    requires AreWords(ws)
    ensures forall i :: 0 <= i < Count(ws) ==> Segments(ws)[i] != "" && Stripped(Segments(ws)[i])
  {
    if ws != [] {
      SegmentsClean(ws[1..]);
      assert IsWord(ws[0]);
    }
  }

  lemma StripStripped(s: string)
    requires Stripped(s) && s != ""
    ensures Strip(s) == s
  {
    StripPadded("", s, "");
    assert "" + s + "" == s;
  }

  lemma {:induction false} CleanedClean(parts: seq<string>)
    requires forall i :: 0 <= i < |parts| ==> parts[i] != "" && Stripped(parts[i])
    ensures Cleaned(parts) == parts
  {
    if parts != [] {
      StripStripped(parts[0]);
      CleanedClean(parts[1..]);
    }
  }

  predicate PrefixJoins(ws: seq<string>, n: nat) {
    && Join(Prefix(Segments(ws), n)) == Join(Take(ws, n))
    && (Prefix(Segments(ws), n) == []) == (Take(ws, n) == [])
  }

  /** The first word closes a sentence, or is the only word. */
  lemma JoinPrefixClosed(ws: seq<string>, n: nat)
    requires ws != [] && n > 0 && (Ends(ws[0]) || |ws| == 1) && (Ends(ws[0]) ==> PrefixJoins(ws[1..], n - 1))
    ensures PrefixJoins(ws, n)
  {
    var w, r := ws[0], Segments(ws[1..]);
    assert Prefix(Segments(ws), n) == [w] + Prefix(r, n - 1);
    if Ends(w) {
      assert ([w] + Prefix(r, n - 1))[1..] == Prefix(r, n - 1);
      assert Take(ws, n)[1..] == Take(ws[1..], n - 1);
    } else {
      assert r == [];
    }
  }

  /** The first word belongs to the sentence of the next one. */
  lemma JoinPrefixOpen(ws: seq<string>, n: nat)
    requires |ws| > 1 && n > 0 && !Ends(ws[0]) && PrefixJoins(ws[1..], n)
    ensures PrefixJoins(ws, n)
  {
    var w, r := ws[0], Segments(ws[1..]);
    var p := Prefix(r, n);
    assert Prefix(Segments(ws), n) == [w + " " + r[0]] + p[1..];
    assert Take(ws, n)[1..] == Take(ws[1..], n);
    assert p != [] && p[0] == r[0];
    assert Prefix(Segments(ws), n)[1..] == p[1..];
    JoinHead(w, p);
  }

  lemma JoinHead(w: string, p: seq<string>)
    requires p != []
    ensures Join([w + " " + p[0]] + p[1..]) == w + " " + Join(p)
  {
    assert ([w + " " + p[0]] + p[1..])[1..] == p[1..];
    if |p| > 1 { assert (w + " " + p[0]) + " " + Join(p[1..]) == w + " " + (p[0] + " " + Join(p[1..])); }
  }

  lemma {:induction false} JoinPrefix(ws: seq<string>, n: nat)
    requires AreWords(ws)
    ensures PrefixJoins(ws, n)
  {
    if ws != [] && n > 0 {
      if Ends(ws[0]) || |ws| == 1 {
        if Ends(ws[0]) { JoinPrefix(ws[1..], n - 1); }
        JoinPrefixClosed(ws, n);
      } else {
        JoinPrefix(ws[1..], n);
        JoinPrefixOpen(ws, n);
      }
    }
  }

  /** The regular expression cap is the word-level prefix. */
  lemma CapIsTake(text: string, n: nat)
    ensures Cap(text, n) == Join(Take(Words(text), n))
  {
    var ws := Words(text);
    if ws != [] {
      JoinWords(ws);
      SplitWords("", false, ws);
      var segs := Segments(ws);
      assert "" + segs[0] == segs[0] && [segs[0]] + segs[1..] == segs;
      SegmentsClean(ws);
      CleanedClean(segs);
      JoinPrefix(ws, n);
    }
  }

  // ----- the algebra of capping -----

  lemma {:induction false} TakePrefix(ws: seq<string>, n: nat)
    ensures Take(ws, n) <= ws && Count(Take(ws, n)) <= n
    ensures Take(ws, n) == ws <==> Count(ws) <= n
  {
    if ws != [] && n > 0 {
      TakePrefix(ws[1..], if Ends(ws[0]) then n - 1 else n);
      assert Take(ws, n)[1..] == Take(ws[1..], if Ends(ws[0]) then n - 1 else n);
      assert [ws[0]] + ws[1..] == ws;
    }
  }

  lemma {:induction false} TakeTake(ws: seq<string>, m: nat, n: nat)
    ensures Take(Take(ws, m), n) == Take(ws, if m < n then m else n)
  {
    if ws != [] && m > 0 && n > 0 {
      var e := if Ends(ws[0]) then 1 else 0;
      TakeTake(ws[1..], m - e, n - e);
      TakeCons(ws[0], Take(ws[1..], m - e), n);
    }
  }

  lemma TakeCons(w: string, ws: seq<string>, n: nat)
    requires n > 0
    ensures Take([w] + ws, n) == [w] + Take(ws, n - if Ends(w) then 1 else 0)
  {
    assert ([w] + ws)[1..] == ws;
  }

  lemma {:induction false} JoinOfPrefix(a: seq<string>, b: seq<string>)
    requires a <= b
    ensures Join(a) <= Join(b)
  {
    if a != [] && |b| > 1 {
      assert a[1..] <= b[1..];
      if |a| == 1 { assert a[0] <= a[0] + " " + Join(b[1..]); }
      else { JoinOfPrefix(a[1..], b[1..]); }
    } else if a != [] {
      assert a == b;
    }
  }

  lemma {:induction false} JoinInjective(a: seq<string>, b: seq<string>)
    requires AreWords(a) && AreWords(b) && Join(a) == Join(b)
    ensures a == b
  {
    WordsOfJoin(a);
    WordsOfJoin(b);
  }

  /** A capped text is a prefix of the normalised text, has at most `n`
      sentences, and is the whole normalised text exactly when that has no
      more than `n` sentences. */
  lemma CapIsSentencePrefix(text: string, n: nat)
    ensures Cap(text, n) <= Normalize(text)
    ensures Sentences(Cap(text, n)) <= n
    ensures Cap(text, n) == Normalize(text) <==> Sentences(text) <= n
  {
    var ws := Words(text);
    CapIsTake(text, n);
    TakePrefix(ws, n);
    JoinOfPrefix(Take(ws, n), ws);
    WordsOfJoin(Take(ws, n));
    if Cap(text, n) == Normalize(text) { JoinInjective(Take(ws, n), ws); }
  }

  /** Capping twice is capping once at the smaller bound. */
  lemma CapCap(text: string, m: nat, n: nat)
    ensures Cap(Cap(text, m), n) == Cap(text, if m < n then m else n)
  {
    var ws := Words(text);
    CapIsTake(text, m);
    CapIsTake(Cap(text, m), n);
    CapIsTake(text, if m < n then m else n);
    TakePrefix(ws, m);
    WordsOfJoin(Take(ws, m));
    TakeTake(ws, m, n);
  }

  /** A text with a sentence left keeps at least one: the cap never empties it. */
  lemma CapKeepsSomething(text: string, n: nat)
    requires n > 0 && !Blank(text)
    ensures Cap(text, n) != "" && Stripped(Cap(text, n)[..1])
  {
    var ws := Words(text);
    var lo := SkipSpaces(text, 0);
    assert ws != [];
    CapIsTake(text, n);
    assert Take(ws, n) != [];
    TakePrefix(ws, n);
    JoinWords(Take(ws, n));
  }

  // ----- where a sentence ends -----

  /** The word's last character is a full stop, an exclamation or a question mark. */
  predicate Closes(w: string) {
    w != "" && (w[|w| - 1] == '.' || w[|w| - 1] == '!' || w[|w| - 1] == '?')
  }

  lemma EndsIffCloses(w: string)
    ensures Ends(w) <==> Closes(w)
  {}

  lemma {:induction false} TakeOne(ws: seq<string>, v: string, more: seq<string>)
    requires (forall w :: w in ws ==> !Closes(w)) && Closes(v)
    ensures Take(ws + [v] + more, 1) == ws + [v]
  {
    var all := ws + [v] + more;
    EndsIffCloses(all[0]);
    if ws == [] {
      assert Take(all[1..], 0) == [];
    } else {
      assert all[0] == ws[0] && all[1..] == ws[1..] + [v] + more;
      TakeOne(ws[1..], v, more);
      assert [ws[0]] + (ws[1..] + [v]) == ws + [v];
    }
  }

  lemma {:induction false} TakeOpen(ws: seq<string>)
    requires forall w :: w in ws ==> !Closes(w)
    ensures Take(ws, 1) == ws
  {
    if ws != [] {
      EndsIffCloses(ws[0]);
      TakeOpen(ws[1..]);
      assert [ws[0]] + ws[1..] == ws;
    }
  }

  /** The first sentence reaches to the first word that closes one, and is the
      whole text when no word does. */
  lemma FirstSentence(ws: seq<string>, v: string, more: seq<string>)
    requires AreWords(ws + [v] + more) && forall w :: w in ws ==> !Closes(w)
    ensures Closes(v) ==> Cap(Join(ws + [v] + more), 1) == Join(ws + [v])
    ensures !Closes(v) && more == [] ==> Cap(Join(ws + [v] + more), 1) == Join(ws + [v])
  {
    var all := ws + [v] + more;
    CapIsTake(Join(all), 1);
    WordsOfJoin(all);
    if Closes(v) {
      TakeOne(ws, v, more);
    } else if more == [] {
      assert all == ws + [v];
      TakeOpen(ws + [v]);
    }
  }
}
