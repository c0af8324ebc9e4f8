/** The containment laws in plain characters: which ten end a line, which two
    words begin an envelope, and what prefix is put before a line
    (grok_bot/framing.py). */
module FramingFields {
  import opened Framing

  predicate EndsALine(c: char) {
    c in {'\n', '\r', '\U{0B}', '\U{0C}', '\U{1C}', '\U{1D}', '\U{1E}', '\U{85}', '\U{2028}', '\U{2029}'}
  }

  /** The first n characters end no line; then nothing, one character that does,
      or a CR LF pair. */
  predicate OneLine(s: string, n: nat) {
    && n <= |s| && (forall i :: 0 <= i < n ==> !EndsALine(s[i]))
    && ((n == |s| && n > 0) || (n + 1 == |s| && EndsALine(s[n])) || (n + 2 == |s| && s[n] == '\r' && s[n + 1] == '\n'))
  }

  lemma {:induction false} LineReads(s: string) returns (n: nat)
    requires IsLine(s)
    ensures OneLine(s, n) && Body(s) == s[..n]
  {
    if IsBoundary(s[0]) {
      n := 0;
    } else if |s| == 1 {
      n := 1;
    } else {
      n := LineReads(s[1..]);
      n := n + 1;
      assert forall i :: 0 < i < n ==> s[i] == s[1..][i - 1];
      BodyOfMore(s);
    }
  }

  lemma BodyOfMore(s: string)
    requires |s| > 1 && !IsBoundary(s[0])
    ensures Body(s) == [s[0]] + Body(s[1..])
  {
    assert s[1..][|s| - 2] == s[|s| - 1];
    if |s| > 2 { assert s[1..][|s| - 3..] == s[|s| - 2..]; }
  }

  lemma {:induction false} ReadsAsLine(s: string, n: nat)
    requires OneLine(s, n)
    ensures IsLine(s)
  {
    if n > 0 && |s| > 1 {
      assert forall i :: 0 <= i < n - 1 ==> s[1..][i] == s[i + 1];
      ReadsAsLine(s[1..], n - 1);
    }
  }

  /** A text is split where, and only where, one of the ten characters or a CR LF
      pair ends a line. */
  lemma SplitsExactly(t: string)
    ensures Join(SplitKeepingEnds(t)) == t
    ensures forall i :: 0 <= i < |SplitKeepingEnds(t)| ==> exists n :: OneLine(SplitKeepingEnds(t)[i], n)
    ensures forall i :: 0 <= i < |SplitKeepingEnds(t)| - 1 ==>
              var line, next := SplitKeepingEnds(t)[i], SplitKeepingEnds(t)[i + 1];
              line != "" && next != "" && EndsALine(line[|line|-1]) && !(line[|line|-1] == '\r' && next[0] == '\n')
  {
    JoinOfSplit(t);
    SplitIsSeparable(t);
    forall i | 0 <= i < |SplitKeepingEnds(t)| ensures exists n :: OneLine(SplitKeepingEnds(t)[i], n) {
      var n := LineReads(SplitKeepingEnds(t)[i]);
    }
  }

  /** A nonempty text is one line exactly when it reads as one. */
  lemma LinesExactly(s: string)
    ensures IsLine(s) <==> exists n :: OneLine(s, n)
  {
    if IsLine(s) { var n := LineReads(s); }
    if n :| OneLine(s, n) { ReadsAsLine(s, n); }
  }

  // --------------------------------------------------------------- envelopes

  ghost predicate Contains(t: string, word: string) { exists before, after :: t == before + word + after }

  lemma OccursExactly(word: string, t: string)
    ensures OccursIn(word, t) <==> Contains(t, word)
  {
    if OccursIn(word, t) {
      var i :| 0 <= i <= |t| && At(word, t, i);
      assert t == t[..i] + word + t[i + |word|..];
    }
    if Contains(t, word) {
      var before, after :| t == before + word + after;
      assert At(word, t, |before|);
    }
  }

  lemma {:induction false} FilteredExactly(lines: seq<string>, l: string)
    ensures l in Filtered(lines) <==> l in lines && ("DI-GROKBOT-" <= l || "DI-REMOTE-" <= l)
  {
    if lines != [] {
      FilteredExactly(lines[1..], l);
      assert l in lines <==> l == lines[0] || l in lines[1..];
    }
  }

  /** The envelope lines of a reply are its lines that begin with either word. */
  lemma EnvelopesExactly(message: string, l: string)
    ensures l in EnvelopeLines(message) <==> l in SplitLines(message) && ("DI-GROKBOT-" <= l || "DI-REMOTE-" <= l)
  {
    FilteredExactly(SplitLines(message), l);
  }

  /** Quoting puts "> " before every line; neutralizing only before the lines that
      contain either word. Neither adds nor loses a line. */
  lemma ContainedExactly(t: string)
    ensures var lines, quoted, safe := SplitKeepingEnds(t), SplitKeepingEnds(QuoteProse(t)), SplitKeepingEnds(Neutralized(t));
            && |quoted| == |lines| && |safe| == |lines|
            && (forall i :: 0 <= i < |lines| ==> quoted[i] == "> " + lines[i])
            && (forall i :: 0 <= i < |lines| ==>
                  safe[i] == if Contains(lines[i], "DI-GROKBOT-") || Contains(lines[i], "DI-REMOTE-") then "> " + lines[i] else lines[i])
  {
    QuoteProseContains(t);
    NeutralizedChangesExactly(t);
    var lines := SplitKeepingEnds(t);
    forall i | 0 <= i < |lines|
      ensures CarriesMarker(lines[i]) <==> Contains(lines[i], "DI-GROKBOT-") || Contains(lines[i], "DI-REMOTE-")
    {
      OccursExactly(MARKER_FAMILY, lines[i]);
      OccursExactly(ROUTING_MARKER_FAMILY, lines[i]);
    }
  }
}
