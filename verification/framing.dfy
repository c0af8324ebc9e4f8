/** Column-0 containment of untrusted text and the bounded nesting walk
    (grok_bot/framing.py).

    Text is split by the grammar of Python's str.splitlines: ten single
    characters end a line, and CR LF is ONE terminator. */
module Framing {

  const MARKER_FAMILY := "DI-GROKBOT-"
  const ROUTING_MARKER_FAMILY := "DI-REMOTE-"
  const NEUTRALIZED_LINE_PREFIX := "> "

  // ---------------------------------------------------------------- lines

  predicate IsBoundary(c: char) {
    || c == '\n' || c == '\r' || c == '\U{0B}' || c == '\U{0C}' || c == '\U{1C}' || c == '\U{1D}'
    || c == '\U{1E}' || c == '\U{85}' || c == '\U{2028}' || c == '\U{2029}'
  }

  /** Length of the first line of t, its terminator included. */
  function FirstLine(t: string): (n: nat)
    requires t != ""
    ensures 0 < n <= |t|
  {
    if IsBoundary(t[0]) then
      if t[0] == '\r' && |t| > 1 && t[1] == '\n' then 2 else 1
    else if |t| == 1 then 1
    else 1 + FirstLine(t[1..])
  }

  /** str.splitlines(keepends=True) */
  function SplitKeepingEnds(t: string): seq<string> {
    if t == "" then [] else
      var n := FirstLine(t);
      [t[..n]] + SplitKeepingEnds(t[n..])
  }

  function Join(lines: seq<string>): string {
    if lines == [] then "" else lines[0] + Join(lines[1..])
  }

  /** A line without its terminator, as str.splitlines() returns it. */
  function Body(line: string): string {
    if |line| >= 2 && line[|line|-2..] == "\r\n" then line[..|line|-2]
    else if line != "" && IsBoundary(line[|line|-1]) then line[..|line|-1]
    else line
  }

  function Bodies(lines: seq<string>): seq<string> {
    seq(|lines|, i requires 0 <= i < |lines| => Body(lines[i]))
  }

  /** str.splitlines() */
  function SplitLines(t: string): seq<string> { Bodies(SplitKeepingEnds(t)) }

  // ------------------------------------------------------------- envelopes

  predicate StartsWithMarker(line: string) {
    MARKER_FAMILY <= line || ROUTING_MARKER_FAMILY <= line
  }

  predicate At(word: string, t: string, i: int) {
    0 <= i && i + |word| <= |t| && t[i..i + |word|] == word
  }

  predicate OccursIn(word: string, t: string) {
    exists i | 0 <= i <= |t| :: At(word, t, i)
  }

  predicate CarriesMarker(t: string) {
    OccursIn(MARKER_FAMILY, t) || OccursIn(ROUTING_MARKER_FAMILY, t)
  }

  function Filtered(lines: seq<string>): seq<string> {
    if lines == [] then []
    else (if StartsWithMarker(lines[0]) then [lines[0]] else []) + Filtered(lines[1..])
  }

  /** The lines of a reply that begin an envelope at column 0. */
  function EnvelopeLines(message: string): seq<string> { Filtered(SplitLines(message)) }

  function Prefixed(lines: seq<string>): seq<string> {
    seq(|lines|, i requires 0 <= i < |lines| => NEUTRALIZED_LINE_PREFIX + lines[i])
  }

  function QuoteProse(t: string): string { Join(Prefixed(SplitKeepingEnds(t))) }

  function NeutralizedLine(line: string): string {
    if CarriesMarker(line) then NEUTRALIZED_LINE_PREFIX + line else line
  }

  function NeutralizedLines(lines: seq<string>): seq<string> {
    seq(|lines|, i requires 0 <= i < |lines| => NeutralizedLine(lines[i]))
  }

  function Neutralized(t: string): string {
    if CarriesMarker(t) then Join(NeutralizedLines(SplitKeepingEnds(t))) else t
  }

  /** neutralize: the loop that collects the pieces, and its changed flag. */
  method Neutralize(t: string) returns (safe: string, changed: bool)
    ensures safe == Neutralized(t)
    ensures changed <==> safe != t
  {
    NeutralizedChangesExactly(t);
    if !CarriesMarker(t) { return t, false; }
    var lines := SplitKeepingEnds(t);
    var pieces: seq<string> := [];
    for k := 0 to |lines|
      invariant pieces == NeutralizedLines(lines)[..k]
    {
      pieces := pieces + [NeutralizedLine(lines[k])];
    }
    assert pieces == NeutralizedLines(lines);
    safe, changed := Join(pieces), true;
  }

  // ---------------------------------------------- split and join are inverse

  lemma {:induction false} JoinOfSplit(t: string)
    ensures Join(SplitKeepingEnds(t)) == t
  {
    if t != "" {
      var n := FirstLine(t);
      JoinOfSplit(t[n..]);
      assert SplitKeepingEnds(t)[1..] == SplitKeepingEnds(t[n..]);
      assert t == t[..n] + t[n..];
    }
  }

  /** One whole line: nonempty, and nothing before its end ends a line. */
  ghost predicate IsLine(s: string) { s != "" && FirstLine(s) == |s| }

  predicate Terminated(s: string) { s != "" && IsBoundary(s[|s|-1]) }

  /** Lines that joining keeps apart: all but the last are terminated, and no
      CR is left before an LF that would fuse with it. */
  ghost predicate Separable(lines: seq<string>) {
    && (forall i :: 0 <= i < |lines| ==> IsLine(lines[i]))
    && (forall i :: 0 <= i < |lines| - 1 ==> Terminated(lines[i]))
    && (forall i :: 0 <= i < |lines| - 1 && lines[i][|lines[i]|-1] == '\r' ==> lines[i + 1][0] != '\n')
  }

  lemma {:induction false} FirstLineOfJoin(a: string, b: string)
    requires IsLine(a)
    requires b != "" ==> Terminated(a) && !(a[|a|-1] == '\r' && b[0] == '\n')
    ensures FirstLine(a + b) == |a|
  {
    if b == "" {
      assert a + b == a;
    } else if |a| > 1 && !IsBoundary(a[0]) {
      assert (a + b)[1..] == a[1..] + b;
      FirstLineOfJoin(a[1..], b);
    }
  }

  lemma {:induction false} SplitOfJoin(lines: seq<string>)
    requires Separable(lines)
    ensures SplitKeepingEnds(Join(lines)) == lines
  {
    if lines != [] {
      var rest := Join(lines[1..]);
      if |lines| > 1 {
        assert rest == lines[1] + Join(lines[2..]) by { assert lines[1..][1..] == lines[2..]; }
      }
      SplitOfJoin(lines[1..]);
      FirstLineOfJoin(lines[0], rest);
      assert (lines[0] + rest)[|lines[0]|..] == rest;
    }
  }

  lemma {:induction false} FirstLineIsLine(t: string)
    requires t != ""
    ensures IsLine(t[..FirstLine(t)])
    ensures FirstLine(t) < |t| ==> Terminated(t[..FirstLine(t)])
    ensures FirstLine(t) < |t| && t[FirstLine(t)-1] == '\r' ==> t[FirstLine(t)] != '\n'
  {
    if !IsBoundary(t[0]) && |t| > 1 {
      var n := FirstLine(t);
      FirstLineIsLine(t[1..]);
      assert t[..n][1..] == t[1..][..n-1];
    }
  }

  lemma {:induction false} SplitIsSeparable(t: string)
    ensures Separable(SplitKeepingEnds(t))
    ensures t != "" ==> SplitKeepingEnds(t) != [] && SplitKeepingEnds(t)[0][0] == t[0]
  {
    if t != "" {
      var n := FirstLine(t);
      FirstLineIsLine(t);
      SplitIsSeparable(t[n..]);
      var rest := SplitKeepingEnds(t[n..]);
      assert SplitKeepingEnds(t) == [t[..n]] + rest;
    }
  }

  lemma {:induction false} LineEndsAlike(s: string)
    requires IsLine(s)
    ensures IsLine(NEUTRALIZED_LINE_PREFIX + s)
    ensures Body(NEUTRALIZED_LINE_PREFIX + s) == NEUTRALIZED_LINE_PREFIX + Body(s)
  {
    var p := NEUTRALIZED_LINE_PREFIX + s;
    assert p[1..][1..] == s;
    assert !IsBoundary(p[0]) && !IsBoundary(p[1..][0]);
    assert p[|p|-1] == s[|s|-1];
    if |s| >= 2 { assert p[|p|-2..] == s[|s|-2..]; }
    else { assert p[|p|-2] == ' '; }
  }

  lemma NoMarkerMeansNotFiltered(lines: seq<string>)
    requires forall i :: 0 <= i < |lines| ==> !StartsWithMarker(lines[i])
    ensures Filtered(lines) == []
  {
  }

  lemma SubstringOccurs(word: string, whole: string, part: string)
    requires OccursIn(part, whole) && OccursIn(word, part)
    ensures OccursIn(word, whole)
  {
    var from :| At(part, whole, from);
    assert At(part, whole, from);
    var i :| At(word, part, i);
    assert At(word, part, i);
    assert forall k :: 0 <= k < |word| ==> whole[from + i + k] == part[i + k] == word[k];
    assert whole[from + i..from + i + |word|] == word;
    assert At(word, whole, from + i);
  }

  lemma BodyIsPrefix(line: string)
    ensures Body(line) <= line
  {
  }

  lemma StartsWithIsOccurrence(line: string)
    requires StartsWithMarker(Body(line))
    ensures CarriesMarker(line)
  {
    BodyIsPrefix(line);
    if MARKER_FAMILY <= Body(line) {
      assert At(MARKER_FAMILY, line, 0);
    } else {
      assert At(ROUTING_MARKER_FAMILY, line, 0);
    }
  }

  // ------------------------------------------------------------ main results

  lemma PrefixedIsSeparable(lines: seq<string>)
    requires Separable(lines)
    ensures Separable(Prefixed(lines))
    ensures forall i :: 0 <= i < |lines| ==> !StartsWithMarker(Body(Prefixed(lines)[i]))
  {
    var quoted := Prefixed(lines);
    forall i | 0 <= i < |lines| ensures IsLine(quoted[i]) && !StartsWithMarker(Body(quoted[i])) {
      LineEndsAlike(lines[i]);
      assert Body(quoted[i])[0] == '>';
    }
    assert forall i :: 0 <= i < |lines| ==> quoted[i][0] == '>' && quoted[i][|quoted[i]|-1] == lines[i][|lines[i]|-1];
  }

  function Unprefixed(lines: seq<string>): seq<string> {
    seq(|lines|, i requires 0 <= i < |lines| => if |lines[i]| < 2 then lines[i] else lines[i][2..])
  }

  /** quote_prose is contained: shown text never reaches column 0, its lines
      are exactly the prefixed lines, and dropping the prefix restores it. */
  lemma QuoteProseContains(t: string)
    ensures EnvelopeLines(QuoteProse(t)) == []
    ensures SplitKeepingEnds(QuoteProse(t)) == Prefixed(SplitKeepingEnds(t))
    ensures Join(Unprefixed(SplitKeepingEnds(QuoteProse(t)))) == t
  {
    var lines := SplitKeepingEnds(t);
    SplitIsSeparable(t);
    PrefixedIsSeparable(lines);
    SplitOfJoin(Prefixed(lines));
    NoMarkerMeansNotFiltered(Bodies(Prefixed(lines)));
    JoinOfSplit(t);
    assert Unprefixed(Prefixed(lines)) == lines;
  }

  lemma NeutralizedSplits(t: string)
    requires CarriesMarker(t)
    ensures SplitKeepingEnds(Neutralized(t)) == NeutralizedLines(SplitKeepingEnds(t))
  {
    var lines := SplitKeepingEnds(t);
    SplitIsSeparable(t);
    var pieces := NeutralizedLines(lines);
    forall i | 0 <= i < |lines| ensures IsLine(pieces[i]) && pieces[i][|pieces[i]|-1] == lines[i][|lines[i]|-1]
                                && (pieces[i][0] == '>' || pieces[i] == lines[i]) {
      LineEndsAlike(lines[i]);
    }
    SplitOfJoin(pieces);
  }

  /** neutralize leaves no envelope at column 0, for every string. */
  lemma NeutralizedHasNoEnvelope(t: string)
    ensures EnvelopeLines(Neutralized(t)) == []
  {
    var out := SplitKeepingEnds(Neutralized(t));
    if CarriesMarker(t) {
      NeutralizedSplits(t);
      var lines := SplitKeepingEnds(t);
      SplitIsSeparable(t);
      forall i | 0 <= i < |out| ensures !StartsWithMarker(Body(out[i])) {
        LineEndsAlike(lines[i]);
        if StartsWithMarker(Body(lines[i])) { StartsWithIsOccurrence(lines[i]); }
      }
    } else {
      forall i | 0 <= i < |out| ensures !StartsWithMarker(Body(out[i])) {
        if StartsWithMarker(Body(out[i])) {
          StartsWithIsOccurrence(out[i]);
          LineOccurs(t, i);
          var word := if OccursIn(MARKER_FAMILY, out[i]) then MARKER_FAMILY else ROUTING_MARKER_FAMILY;
          SubstringOccurs(word, t, out[i]);
        }
      }
    }
    NoMarkerMeansNotFiltered(Bodies(out));
  }

  lemma {:induction false} LineOccurs(t: string, i: nat)
    requires i < |SplitKeepingEnds(t)|
    ensures OccursIn(SplitKeepingEnds(t)[i], t)
  {
    var n := FirstLine(t);
    var line := SplitKeepingEnds(t)[i];
    if i == 0 {
      assert At(line, t, 0);
    } else {
      LineOccurs(t[n..], i - 1);
      var from :| At(line, t[n..], from);
      assert At(line, t[n..], from);
      OccursFurther(line, t, n, from);
    }
  }

  lemma OccursFurther(word: string, t: string, n: nat, from: int)
    requires n <= |t| && At(word, t[n..], from)
    ensures OccursIn(word, t)
  {
    assert t[n + from..n + from + |word|] == t[n..][from..from + |word|];
    assert At(word, t, n + from);
  }

  /** A marker cannot straddle two lines, so some line carries it. */
  lemma {:induction false} MarkerLiesInOneLine(word: string, t: string)
    requires word != "" && (forall k :: 0 <= k < |word| ==> !IsBoundary(word[k]))
    requires OccursIn(word, t)
    ensures exists i :: 0 <= i < |SplitKeepingEnds(t)| && OccursIn(word, SplitKeepingEnds(t)[i])
  {
    var at :| At(word, t, at);
    var n := FirstLine(t);
    if at + |word| <= n {
      MarkerInFirstLine(word, t, at);
    } else {
      MarkerPastFirstLine(word, t, at);
      MarkerLiesInOneLine(word, t[n..]);
      var i :| 0 <= i < |SplitKeepingEnds(t[n..])| && OccursIn(word, SplitKeepingEnds(t[n..])[i]);
      assert SplitKeepingEnds(t)[i + 1] == SplitKeepingEnds(t[n..])[i];
    }
  }

  lemma MarkerInFirstLine(word: string, t: string, at: int)
    requires word != "" && At(word, t, at) && at + |word| <= FirstLine(t)
    ensures |SplitKeepingEnds(t)| > 0 && OccursIn(word, SplitKeepingEnds(t)[0])
  {
    var n := FirstLine(t);
    assert t[..n][at..at + |word|] == t[at..at + |word|];
    assert At(word, SplitKeepingEnds(t)[0], at);
  }

  /** A word without line boundaries that does not end in the first line begins
      past it. */
  lemma MarkerPastFirstLine(word: string, t: string, at: int)
    requires word != "" && (forall k :: 0 <= k < |word| ==> !IsBoundary(word[k]))
    requires At(word, t, at) && at + |word| > FirstLine(t)
    ensures OccursIn(word, t[FirstLine(t)..]) && FirstLine(t) > 0
  {
    var n := FirstLine(t);
    if at < n { assert t[..n][n-1] == t[at..at + |word|][n-1-at]; }
    FirstLineIsLine(t);
    assert t[n..][at - n..at - n + |word|] == t[at..at + |word|];
    assert At(word, t[n..], at - n);
  }

  /** A line of a text without markers carries none. */
  lemma LinesCarryNothing(t: string, i: nat)
    requires !CarriesMarker(t) && i < |SplitKeepingEnds(t)|
    ensures !CarriesMarker(SplitKeepingEnds(t)[i])
  {
    var line := SplitKeepingEnds(t)[i];
    LineOccurs(t, i);
    if CarriesMarker(line) {
      SubstringOccurs(if OccursIn(MARKER_FAMILY, line) then MARKER_FAMILY else ROUTING_MARKER_FAMILY, t, line);
    }
  }

  /** The changed flag is truthful: text changes exactly when a family occurs,
      and line by line: each line that carries one is prefixed, no other changes,
      none is added or lost. */
  lemma NeutralizedChangesExactly(t: string)
    ensures Neutralized(t) != t <==> CarriesMarker(t)
    ensures var lines, out := SplitKeepingEnds(t), SplitKeepingEnds(Neutralized(t));
            && |out| == |lines|
            && forall i :: 0 <= i < |lines| ==>
                 out[i] == (if CarriesMarker(lines[i]) then NEUTRALIZED_LINE_PREFIX + lines[i] else lines[i])
  {
    if !CarriesMarker(t) {
      forall i: nat | i < |SplitKeepingEnds(t)| ensures !CarriesMarker(SplitKeepingEnds(t)[i]) { LinesCarryNothing(t, i); }
    }
    if CarriesMarker(t) {
      var word := if OccursIn(MARKER_FAMILY, t) then MARKER_FAMILY else ROUTING_MARKER_FAMILY;
      MarkerLiesInOneLine(word, t);
      var i :| 0 <= i < |SplitKeepingEnds(t)| && OccursIn(word, SplitKeepingEnds(t)[i]);
      NeutralizedSplits(t);
      assert |SplitKeepingEnds(Neutralized(t))[i]| == |SplitKeepingEnds(t)[i]| + 2;
    }
  }

  // ---------------------------------------------------------------- nesting

  /** A decoded JSON value; a leaf carries nothing the walk looks at. */
  datatype Value = Leaf | Array(items: seq<Value>) | Object(fields: seq<(string, Value)>)

  function Children(v: Value): (c: seq<Value>)
    ensures forall i :: 0 <= i < |c| ==> c[i] < v
  {
    match v
    case Leaf => []
    case Array(items) => items
    case Object(fields) => seq(|fields|, i requires 0 <= i < |fields| => assert fields[i] < v; fields[i].1)
  }

  function Max(a: nat, b: nat): nat { if a < b then b else a }

  /** How deeply containers nest; the outermost container is depth 1. */
  function Depth(v: Value): nat
    decreases v, 1
  {
    if v.Leaf? then 0 else 1 + DeepestOf(v, Children(v))
  }

  function DeepestOf(ghost parent: Value, vs: seq<Value>): nat
    requires forall i :: 0 <= i < |vs| ==> vs[i] < parent
    decreases parent, 0, |vs|
  {
    if vs == [] then 0 else Max(Depth(vs[0]), DeepestOf(parent, vs[1..]))
  }

  function Size(v: Value): (n: nat)
    ensures n > 0
    decreases v, 1
  {
    1 + SizeOf(v, Children(v))
  }

  function SizeOf(ghost parent: Value, vs: seq<Value>): nat
    requires forall i :: 0 <= i < |vs| ==> vs[i] < parent
    decreases parent, 0, |vs|
  {
    if vs == [] then 0 else Size(vs[0]) + SizeOf(parent, vs[1..])
  }

  ghost function Work(stack: seq<(Value, int)>): nat {
    if stack == [] then 0 else Work(stack[..|stack|-1]) + Size(stack[|stack|-1].0)
  }

  /** Some stacked value nests past what its own depth leaves of the limit. */
  ghost predicate Exceeding(stack: seq<(Value, int)>, limit: int) {
    stack != []
    && (Exceeding(stack[..|stack|-1], limit)
        || stack[|stack|-1].1 - 1 + Depth(stack[|stack|-1].0) > limit)
  }

  lemma {:induction false} WorkOfChildren(parent: Value, vs: seq<Value>, stack: seq<(Value, int)>, depth: int)
    requires forall i :: 0 <= i < |vs| ==> vs[i] < parent
    ensures Work(stack + Stacked(vs, depth)) == Work(stack) + SizeOf(parent, vs)
    decreases |vs|
  {
    var stacked := Stacked(vs, depth);
    if vs == [] {
      assert stack + stacked == stack;
    } else {
      WorkOfChildren(parent, vs[1..], stack + [(vs[0], depth)], depth);
      assert stack + stacked == stack + [(vs[0], depth)] + Stacked(vs[1..], depth);
      assert (stack + [(vs[0], depth)])[..|stack|] == stack;
    }
  }

  function Stacked(vs: seq<Value>, depth: int): seq<(Value, int)> {
    seq(|vs|, i requires 0 <= i < |vs| => (vs[i], depth))
  }

  lemma {:induction false} ExceedingChildren(parent: Value, vs: seq<Value>, stack: seq<(Value, int)>, depth: int, limit: int)
    requires forall i :: 0 <= i < |vs| ==> vs[i] < parent
    requires depth - 1 <= limit
    ensures Exceeding(stack + Stacked(vs, depth), limit)
            <==> Exceeding(stack, limit) || depth - 1 + DeepestOf(parent, vs) > limit
    decreases |vs|
  {
    var stacked := Stacked(vs, depth);
    if vs == [] {
      assert stack + stacked == stack;
    } else {
      ExceedingChildren(parent, vs[1..], stack + [(vs[0], depth)], depth, limit);
      assert stack + stacked == stack + [(vs[0], depth)] + Stacked(vs[1..], depth);
      assert (stack + [(vs[0], depth)])[..|stack|] == stack;
    }
  }

  /** What one pop of a container leaves on the stack. */
  lemma PopContainer(rest: seq<(Value, int)>, item: Value, depth: int, limit: int)
    requires !item.Leaf? && depth <= limit
    ensures Exceeding(rest + Stacked(Children(item), depth + 1), limit) <==> Exceeding(rest + [(item, depth)], limit)
    ensures Work(rest + Stacked(Children(item), depth + 1)) < Work(rest + [(item, depth)])
  {
    var was := rest + [(item, depth)];
    assert was[..|was|-1] == rest;
    WorkOfChildren(item, Children(item), rest, depth + 1);
    ExceedingChildren(item, Children(item), rest, depth + 1, limit);
  }

  lemma PopLeaf(rest: seq<(Value, int)>, depth: int, limit: int)
    requires depth <= limit + 1
    ensures Exceeding(rest, limit) <==> Exceeding(rest + [(Leaf, depth)], limit)
    ensures Work(rest) < Work(rest + [(Leaf, depth)])
  {
    var was := rest + [(Leaf, depth)];
    assert was[..|was|-1] == rest;
  }

  lemma PopTooDeep(rest: seq<(Value, int)>, item: Value, depth: int, limit: int)
    requires !item.Leaf? && depth > limit
    ensures Exceeding(rest + [(item, depth)], limit)
  {
    var was := rest + [(item, depth)];
    assert was[|was|-1] == (item, depth);
  }

  /** Whether the walk finds the value nested deeper than the limit. */
  predicate Exceeds(value: Value, limit: int) { Depth(value) > (if limit < 0 then 0 else limit) }

  /** The walk's answer is "recursive depth greater than the limit" exactly for a
      limit of zero or more, or a container: below zero it says no of a leaf,
      whose depth 0 is greater. */
  lemma ExceedsIsDepthExactly(value: Value, limit: int)
    ensures (Exceeds(value, limit) <==> Depth(value) > limit) <==> limit >= 0 || !value.Leaf?
    ensures !Exceeds(Leaf, -1) && Depth(Leaf) > -1
  {
    if !value.Leaf? { assert Depth(value) == 1 + DeepestOf(value, Children(value)); }
  }

  ghost predicate Bounded(stack: seq<(Value, int)>, bound: int) {
    forall i :: 0 <= i < |stack| ==> 1 <= stack[i].1 <= bound + 1
  }

  /** nesting_exceeds: the worklist answers the recursive question for every
      value and every limit; a negative limit behaves as zero, because a leaf
      is never a container past the bound. */
  method NestingExceeds(value: Value, limit: int) returns (r: bool)
    ensures r <==> Exceeds(value, limit)
  {
    ghost var bound := if limit < 0 then 0 else limit;
    var stack := [(value, 1)];
    assert stack[..0] == [];
    while stack != []
      invariant Bounded(stack, bound)
      invariant Exceeding(stack, bound) <==> Depth(value) > bound
      decreases Work(stack)
    {
      var (item, depth) := stack[|stack|-1];
      var rest := stack[..|stack|-1];
      assert stack == rest + [(item, depth)];
      stack := rest;
      if item.Leaf? {
        PopLeaf(rest, depth, bound);
      } else {
        if depth > limit {
          PopTooDeep(rest, item, depth, bound);
          return true;
        }
        PopContainer(rest, item, depth, bound);
        stack := rest + Stacked(Children(item), depth + 1);
      }
    }
    r := false;
  }
}
