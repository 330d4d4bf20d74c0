/**
 * Line splitting of furigana text (`calculateAnnotatedString`): a list of
 * terms, each a text with an optional reading, becomes a list of annotated
 * lines, one per newline character. The annotated-string builder is modelled
 * as the sequence of inline-content tokens appended to it; placeholder
 * widths and rendering are not modelled.
 */
module FuriganaText {
  import opened Wrappers
  import Text
  import Seqs

  /** A term: its text (which may hold newlines) and its optional reading. */
  datatype TextData = TextData(text: string, reading: Option<string>)

  /** What `appendInlineContent(id, alternateText)` appends to the builder. */
  datatype Token =
    | Placeholder(id: string, alternateText: nat)   // a term: its stripped text, and its index
    | NewlineMarker                                 // `appendInlineContent("\n", "\n")`

  /** The inline content registered under a placeholder id: the term text and reading it renders. */
  datatype InlineContent = InlineContent(text: string, reading: Option<string>)

  /** One step of building: a token appended, or a line emitted and the builder reset. */
  datatype Event = Emit(token: Token) | Break

  /** The term's text without its newlines. */
  function Stripped(term: TextData): string
  {
    Text.Remove(term.text, '\n')
  }

  /** `annotateString`: one placeholder, unless the stripped text is empty. */
  function AnnotateEvents(term: TextData, index: nat): seq<Event>
  {
    if |Stripped(term)| == 0 then [] else [Emit(Placeholder(Stripped(term), index))]
  }

  /** The `n` newlines of one term: the first emits a line, each later one a marker and then a line. */
  function NewlineEvents(n: nat): seq<Event>
  {
    if n == 0 then []
    else NewlineEvents(n - 1) + (if n == 1 then [Break] else [Emit(NewlineMarker), Break])
  }

  function TermEvents(term: TextData, index: nat): seq<Event>
  {
    AnnotateEvents(term, index) + NewlineEvents(Text.Count(term.text, '\n'))
  }

  /** Everything the loops do, in order, for all terms. */
  function Events(terms: seq<TextData>): seq<Event>
  {
    if |terms| == 0 then []
    else Events(terms[..|terms| - 1]) + TermEvents(terms[|terms| - 1], |terms| - 1)
  }

  /** The emitted lines followed by the builder's current content, after `events`. */
  function Split(events: seq<Event>): (r: seq<seq<Token>>)
    ensures |r| > 0
  {
    if |events| == 0 then [[]]
    else
      var before := Split(events[..|events| - 1]);
      match events[|events| - 1]
      case Break => before + [[]]
      case Emit(t) => before[..|before| - 1] + [before[|before| - 1] + [t]]
  }

  /** The returned lines: the content after the last newline is never emitted. */
  function Lines(terms: seq<TextData>): seq<seq<Token>>
  {
    var all := Split(Events(terms));
    all[..|all| - 1]
  }

  /** The shared inline-content map, keyed by stripped text; a later term overwrites an earlier one. */
  function InlineMap(terms: seq<TextData>): map<string, InlineContent>
  {
    if |terms| == 0 then map[]
    else
      var m := InlineMap(terms[..|terms| - 1]);
      var last := terms[|terms| - 1];
      if |Stripped(last)| == 0 then m else m[Stripped(last) := InlineContent(Stripped(last), last.reading)]
  }

  lemma SplitEmit(events: seq<Event>, t: Token)
    ensures var before := Split(events);
      Split(events + [Emit(t)]) == before[..|before| - 1] + [before[|before| - 1] + [t]]
  {
    assert (events + [Emit(t)])[..|events|] == events;
  }

  lemma SplitBreak(events: seq<Event>)
    ensures Split(events + [Break]) == Split(events) + [[]]
  {
    assert (events + [Break])[..|events|] == events;
  }

  /** Appending a token to the open line, as the builder holds it. */
  lemma EmitLine(lines: seq<seq<Token>>, current: seq<Token>, events: seq<Event>, t: Token)
    requires lines + [current] == Split(events)
    ensures lines + [current + [t]] == Split(events + [Emit(t)])
  {
    SplitEmit(events, t);
    assert Split(events)[..|lines|] == lines;
  }

  /** Emitting the open line and starting an empty one. */
  lemma BreakLine(lines: seq<seq<Token>>, current: seq<Token>, events: seq<Event>)
    requires lines + [current] == Split(events)
    ensures (lines + [current]) + [[]] == Split(events + [Break])
  {
    SplitBreak(events);
  }

  /** Events and the map after one more term. */
  lemma PrefixStep(terms: seq<TextData>, i: nat)
    requires i < |terms|
    ensures Events(terms[..i + 1]) == Events(terms[..i]) + AnnotateEvents(terms[i], i) + NewlineEvents(Text.Count(terms[i].text, '\n'))
    ensures InlineMap(terms[..i + 1]) ==
      if |Stripped(terms[i])| == 0 then InlineMap(terms[..i])
      else InlineMap(terms[..i])[Stripped(terms[i]) := InlineContent(Stripped(terms[i]), terms[i].reading)]
  {
    assert terms[..i + 1][..i] == terms[..i];
  }

  /** `calculateAnnotatedString`: the lines and the one inline-content map they all share. */
  method CalculateAnnotatedString(terms: seq<TextData>) returns (lines: seq<seq<Token>>, inline: map<string, InlineContent>)
    ensures lines == Lines(terms)
    ensures inline == InlineMap(terms)
  {
    lines := [];
    inline := map[];
    var current: seq<Token> := [];
    for i := 0 to |terms|
      invariant lines + [current] == Split(Events(terms[..i]))
      invariant inline == InlineMap(terms[..i])
    {
      var term := terms[i];
      PrefixStep(terms, i);
      ghost var before := Events(terms[..i]);
      var text := Text.Remove(term.text, '\n');
      if |text| > 0 {
        EmitLine(lines, current, before, Placeholder(text, i));
        current := current + [Placeholder(text, i)];
        inline := inline[text := InlineContent(text, term.reading)];
      } else {
        assert before + AnnotateEvents(term, i) == before;
      }
      lines, current := AppendNewlines(term.text, lines, current, before + AnnotateEvents(term, i));
    }
    assert terms[..|terms|] == terms;
  }

  /** The inner loop of `calculateAnnotatedString`: a line per newline of one term's text. */
  method AppendNewlines(text: string, lines0: seq<seq<Token>>, current0: seq<Token>, ghost events: seq<Event>)
    returns (lines: seq<seq<Token>>, current: seq<Token>)
    requires lines0 + [current0] == Split(events)
    ensures lines + [current] == Split(events + NewlineEvents(Text.Count(text, '\n')))
  {
    lines, current := lines0, current0;
    assert events + NewlineEvents(0) == events;
    assert text[..0] == [];
    var first := true;
    for j := 0 to |text|
      invariant lines + [current] == Split(events + NewlineEvents(Text.Count(text[..j], '\n')))
      invariant first <==> Text.Count(text[..j], '\n') == 0
    {
      ghost var n := Text.Count(text[..j], '\n');
      Text.CountPrefixStep(text, j, '\n');
      if text[j] != '\n' {
        continue;
      }
      ghost var e := events + NewlineEvents(n);
      if first {
        first := false;
        assert NewlineEvents(n + 1) == [Break];
      } else {
        EmitLine(lines, current, e, NewlineMarker);
        current := current + [NewlineMarker];
        NewlineEventsStep(events, n + 1);
        e := e + [Emit(NewlineMarker)];
      }
      BreakLine(lines, current, e);
      lines := lines + [current];
      current := [];
    }
    assert text[..|text|] == text;
  }

  // ---------------------------------------------------------------------------
  // Properties
  // ---------------------------------------------------------------------------

  function CountBreaks(events: seq<Event>): nat
  {
    if |events| == 0 then 0
    else CountBreaks(events[..|events| - 1]) + (if events[|events| - 1].Break? then 1 else 0)
  }

  /** Total number of newline characters in the terms' texts. */
  function TotalNewlines(terms: seq<TextData>): nat
  {
    if |terms| == 0 then 0 else TotalNewlines(terms[..|terms| - 1]) + Text.Count(terms[|terms| - 1].text, '\n')
  }

  lemma {:induction false} SplitLength(events: seq<Event>)
    ensures |Split(events)| == CountBreaks(events) + 1
  {
    if |events| > 0 { SplitLength(events[..|events| - 1]); }
  }

  lemma {:induction false} CountBreaksAppend(a: seq<Event>, b: seq<Event>)
    ensures CountBreaks(a + b) == CountBreaks(a) + CountBreaks(b)
  {
    if |b| == 0 {
      assert a + b == a;
    } else {
      assert (a + b)[..|a + b| - 1] == a + b[..|b| - 1];
      CountBreaksAppend(a, b[..|b| - 1]);
    }
  }

  lemma {:induction false} NewlineEventsBreaks(n: nat)
    ensures CountBreaks(NewlineEvents(n)) == n
  {
    if n > 0 {
      NewlineEventsBreaks(n - 1);
      CountBreaksAppend(NewlineEvents(n - 1), if n == 1 then [Break] else [Emit(NewlineMarker), Break]);
      assert CountBreaks([Emit(NewlineMarker), Break]) == 1 by {
        assert [Emit(NewlineMarker), Break][..1] == [Emit(NewlineMarker)];
      }
    }
  }

  lemma {:induction false} EventsBreaks(terms: seq<TextData>)
    ensures CountBreaks(Events(terms)) == TotalNewlines(terms)
  {
    if |terms| > 0 {
      var n := |terms| - 1;
      EventsBreaks(terms[..n]);
      CountBreaksAppend(Events(terms[..n]), TermEvents(terms[n], n));
      CountBreaksAppend(AnnotateEvents(terms[n], n), NewlineEvents(Text.Count(terms[n].text, '\n')));
      NewlineEventsBreaks(Text.Count(terms[n].text, '\n'));
    }
  }

  /** One line is returned per newline character, over all terms. */
  lemma LinesCount(terms: seq<TextData>)
    ensures |Lines(terms)| == TotalNewlines(terms)
  {
    EventsBreaks(terms);
    SplitLength(Events(terms));
  }

  lemma {:induction false} SplitAppendEmits(events: seq<Event>, tail: seq<Event>)
    requires forall k :: 0 <= k < |tail| ==> tail[k].Emit?
    ensures |Split(events + tail)| == |Split(events)|
    ensures Split(events + tail)[..|Split(events)| - 1] == Split(events)[..|Split(events)| - 1]
  {
    if |tail| == 0 {
      assert events + tail == events;
    } else {
      assert (events + tail)[..|events + tail| - 1] == events + tail[..|tail| - 1];
      SplitAppendEmits(events, tail[..|tail| - 1]);
    }
  }

  /** Content after the last newline is never returned: a final term without newline adds no line. */
  lemma TrailingTextDropped(terms: seq<TextData>, last: TextData)
    requires '\n' !in last.text
    ensures Lines(terms + [last]) == Lines(terms)
  {
    var all := terms + [last];
    assert all[..|terms|] == terms;
    assert Text.Count(last.text, '\n') == 0 by { CountAbsent(last.text, '\n'); }
    assert Events(all) == Events(terms) + AnnotateEvents(last, |terms|);
    SplitAppendEmits(Events(terms), AnnotateEvents(last, |terms|));
  }

  lemma {:induction false} CountAbsent(s: string, c: char)
    requires c !in s
    ensures Text.Count(s, c) == 0
  {
    if |s| > 0 {
      assert c !in s[1..];
      CountAbsent(s[1..], c);
    }
  }

  /** `m` lines holding only a newline marker. */
  function MarkerLines(m: nat): (r: seq<seq<Token>>)
    ensures |r| == m
  {
    seq(m, _ => [NewlineMarker])
  }

  lemma NewlineEventsStep(prefix: seq<Event>, n: nat)
    requires n >= 2
    ensures prefix + NewlineEvents(n) == prefix + NewlineEvents(n - 1) + [Emit(NewlineMarker)] + [Break]
  {
  }

  lemma MarkerLinesStep(m: nat)
    ensures MarkerLines(m + 1) == MarkerLines(m) + [[NewlineMarker]]
  {
  }

  /** A newline marker emitted into an empty open line. */
  lemma EmitIntoEmptyLine(events: seq<Event>, closed: seq<seq<Token>>)
    requires Split(events) == closed + [[]]
    ensures Split(events + [Emit(NewlineMarker)]) == closed + [[NewlineMarker]]
  {
    SplitEmit(events, NewlineMarker);
    assert Split(events)[..|closed|] == closed;
    assert Split(events)[|closed|] + [NewlineMarker] == [NewlineMarker];
  }

  /**
   * After `n` > 0 newlines, the line that was open is closed, each further
   * newline closes a line holding only its marker, and a new line is open.
   */
  lemma {:induction false} NewlineLines(n: nat, prefix: seq<Event>)
    requires n > 0
    ensures Split(prefix + NewlineEvents(n)) == Split(prefix) + MarkerLines(n - 1) + [[]]
  {
    if n == 1 {
      assert prefix + NewlineEvents(1) == prefix + [Break];
      SplitBreak(prefix);
      assert MarkerLines(0) == [];
    } else {
      var e := prefix + NewlineEvents(n - 1);
      var before := Split(prefix) + MarkerLines(n - 2);
      NewlineLines(n - 1, prefix);
      NewlineEventsStep(prefix, n);
      SplitBreak(e + [Emit(NewlineMarker)]);
      EmitIntoEmptyLine(e, before);
      MarkerLinesStep(n - 2);
    }
  }

  /**
   * The lines of a single term with `n` > 0 newlines: the first line holds
   * the term's placeholder (none for an all-newline text), wherever in the
   * text the first newline is; each further newline returns a line holding
   * only a newline marker.
   */
  lemma SingleTermLines(term: TextData)
    requires '\n' in term.text
    ensures var n := Text.Count(term.text, '\n');
      var lines := Lines([term]);
      |lines| == n && n > 0 &&
      lines[0] == (if |Stripped(term)| == 0 then [] else [Placeholder(Stripped(term), 0)]) &&
      forall k :: 1 <= k < n ==> lines[k] == [NewlineMarker]
  {
    var n := Text.Count(term.text, '\n');
    assert n > 0 by {
      if n == 0 {
        var i :| 0 <= i < |term.text| && term.text[i] == '\n';
        CountPositive(term.text, i);
      }
    }
    assert [term][..0] == [];
    assert Events([term]) == AnnotateEvents(term, 0) + NewlineEvents(n);
    var a := AnnotateEvents(term, 0);
    if |a| == 1 {
      assert a[..0] == [];
    }
    NewlineLines(n, a);
  }

  lemma {:induction false} CountPositive(s: string, i: nat)
    requires i < |s|
    ensures Text.Count(s, s[i]) > 0
  {
    if i > 0 { CountPositive(s[1..], i - 1); }
  }

  /** A key is in the shared map exactly when some term's non-empty stripped text is that key. */
  lemma {:induction false} InlineMapKeys(terms: seq<TextData>, key: string)
    ensures key in InlineMap(terms) <==>
      |key| > 0 && exists i :: 0 <= i < |terms| && Stripped(terms[i]) == key
  {
    if |terms| > 0 {
      var n := |terms| - 1;
      InlineMapKeys(terms[..n], key);
      if |Stripped(terms[n])| > 0 && Stripped(terms[n]) == key {
        assert key in InlineMap(terms);
      } else {
        assert (key in InlineMap(terms)) == (key in InlineMap(terms[..n]));
        assert forall i :: 0 <= i < n ==> terms[..n][i] == terms[i];
      }
    }
  }

  /**
   * The entry for a term's stripped text is that term's content when no later
   * term has the same stripped text: the last writer wins.
   */
  lemma {:induction false} InlineMapLastWriter(terms: seq<TextData>, i: nat)
    requires i < |terms| && |Stripped(terms[i])| > 0
    requires forall j :: i < j < |terms| ==> Stripped(terms[j]) != Stripped(terms[i])
    ensures Stripped(terms[i]) in InlineMap(terms)
    ensures InlineMap(terms)[Stripped(terms[i])] == InlineContent(Stripped(terms[i]), terms[i].reading)
  {
    var n := |terms| - 1;
    var key := Stripped(terms[i]);
    if i < n {
      var init := terms[..n];
      assert init[i] == terms[i];
      forall j | i < j < n
        ensures Stripped(init[j]) != key
      {
        assert init[j] == terms[j];
      }
      InlineMapLastWriter(init, i);
      assert Stripped(terms[n]) != key;
    }
  }
}
