/** Taking mouse reports out of input: which runes go, which stay, and where the cursor ends up. */
module MouseStripping {
  import opened Prelude
  import opened MouseSgr

  /** For each position of an input, where the report that starts there ends. */
  type Ends = seq<Option<nat>>

  predicate Forward(ends: Ends) {
    forall p :: 0 <= p < |ends| && ends[p].Some? ==> p < ends[p].value <= |ends|
  }

  function EndsOf(s: string): (ends: Ends)
    ensures |ends| == |s| && Forward(ends) && forall p :: 0 <= p < |s| ==> ends[p] == Consume(s, p)
  {
    seq(|s|, p requires 0 <= p < |s| => Consume(s, p))
  }

  datatype Span = Span(start: nat, end: nat)

  /** The reports removed from a position on, left to right. */
  function Spans(ends: Ends, from: nat): (spans: seq<Span>)
    requires Forward(ends) && from <= |ends|
    ensures forall i :: 0 <= i < |spans| ==> from <= spans[i].start < spans[i].end <= |ends|
    decreases |ends| - from
  {
    if from == |ends| then []
    else
      match ends[from]
      case Some(end) => [Span(from, end)] + Spans(ends, end)
      case None => Spans(ends, from + 1)
  }

  /** The runes kept from a position on. */
  function Kept(s: string, ends: Ends, from: nat): string
    requires Forward(ends) && |ends| == |s| && from <= |s|
    decreases |s| - from
  {
    if from == |s| then ""
    else
      match ends[from]
      case Some(end) => Kept(s, ends, end)
      case None => [s[from]] + Kept(s, ends, from + 1)
  }

  /** How many runes are kept from a position on and before the cursor. */
  function KeptBefore(ends: Ends, from: nat, cursor: nat): (n: nat)
    requires Forward(ends) && from <= |ends|
    ensures cursor <= from ==> n == 0
    decreases |ends| - from
  {
    if from == |ends| then 0
    else
      match ends[from]
      case Some(end) => KeptBefore(ends, end, cursor)
      case None => (if from < cursor then 1 else 0) + KeptBefore(ends, from + 1, cursor)
  }

  // --- Exactly the leftmost reports go ---

  ghost predicate Covered(spans: seq<Span>, p: nat) {
    exists i :: 0 <= i < |spans| && spans[i].start <= p < spans[i].end
  }

  predicate InOrder(spans: seq<Span>) {
    forall i, j :: 0 <= i < j < |spans| ==> spans[i].end <= spans[j].start
  }

  predicate IsSpan(ends: Ends, from: nat, sp: Span) {
    from <= sp.start < |ends| && ends[sp.start] == Some(sp.end)
  }

  /** Disjoint reports in order, such that every report in the input begins inside one of them. */
  ghost predicate Leftmost(ends: Ends, from: nat, spans: seq<Span>) {
    && (forall i :: 0 <= i < |spans| ==> IsSpan(ends, from, spans[i]))
    && InOrder(spans)
    && (forall p: nat :: from <= p < |ends| && ends[p].Some? ==> Covered(spans, p))
  }

  lemma CoveredCons(first: Span, rest: seq<Span>, p: nat)
    ensures Covered([first] + rest, p) <==> first.start <= p < first.end || Covered(rest, p)
  {
    var all := [first] + rest;
    if Covered(rest, p) {
      var i :| 0 <= i < |rest| && rest[i].start <= p < rest[i].end;
      assert all[i + 1] == rest[i];
    }
    assert all[0] == first;
    if Covered(all, p) && !(first.start <= p < first.end) {
      var i :| 0 <= i < |all| && all[i].start <= p < all[i].end;
      assert rest[i - 1] == all[i];
    }
  }

  lemma LeftmostCons(ends: Ends, from: nat, end: nat, rest: seq<Span>)
    requires Forward(ends) && from < |ends| && ends[from] == Some(end) && Leftmost(ends, end, rest)
    ensures Leftmost(ends, from, [Span(from, end)] + rest)
  {
    var all := [Span(from, end)] + rest;
    forall i | 0 <= i < |all| ensures IsSpan(ends, from, all[i]) {
      assert i > 0 ==> all[i] == rest[i - 1] && IsSpan(ends, end, rest[i - 1]);
    }
    forall p: nat | from <= p < |ends| && ends[p].Some? ensures Covered(all, p) {
      CoveredCons(Span(from, end), rest, p);
    }
    InOrderCons(Span(from, end), rest, ends);
  }

  lemma InOrderCons(first: Span, rest: seq<Span>, ends: Ends)
    requires InOrder(rest) && forall i :: 0 <= i < |rest| ==> IsSpan(ends, first.end, rest[i])
    ensures InOrder([first] + rest)
  {
    var all := [first] + rest;
    forall i, j | 0 <= i < j < |all| ensures all[i].end <= all[j].start {
      assert all[j] == rest[j - 1] && IsSpan(ends, first.end, rest[j - 1]);
      assert i > 0 ==> all[i] == rest[i - 1];
    }
  }

  lemma {:induction false} SpansAreLeftmost(ends: Ends, from: nat)
    requires Forward(ends) && from <= |ends|
    ensures Leftmost(ends, from, Spans(ends, from))
    decreases |ends| - from
  {
    if from < |ends| {
      match ends[from]
      case Some(end) =>
        SpansAreLeftmost(ends, end);
        LeftmostCons(ends, from, end, Spans(ends, end));
      case None =>
        SpansAreLeftmost(ends, from + 1);
        LeftmostEarlier(ends, from, Spans(ends, from + 1));
    }
  }

  lemma LeftmostEarlier(ends: Ends, from: nat, spans: seq<Span>)
    requires from < |ends| && ends[from].None? && Leftmost(ends, from + 1, spans)
    ensures Leftmost(ends, from, spans)
  {
    forall i | 0 <= i < |spans| ensures IsSpan(ends, from, spans[i]) {
      assert IsSpan(ends, from + 1, spans[i]);
    }
  }

  /** The first span is the first report there is. */
  lemma FirstSpanIsFirstReport(ends: Ends, from: nat, spans: seq<Span>, p: nat)
    requires Forward(ends) && Leftmost(ends, from, spans) && from <= p < |ends| && ends[p].Some?
    ensures spans != [] && spans[0].start <= p
  {
    var i :| 0 <= i < |spans| && spans[i].start <= p < spans[i].end;
    assert i > 0 ==> spans[0].end <= spans[i].start;
    assert IsSpan(ends, from, spans[0]);
  }

  lemma LeftmostTail(ends: Ends, from: nat, spans: seq<Span>)
    requires Forward(ends) && Leftmost(ends, from, spans) && spans != []
    ensures Leftmost(ends, spans[0].end, spans[1..]) && IsSpan(ends, from, spans[0])
  {
    assert IsSpan(ends, from, spans[0]);
    var rest := spans[1..];
    forall i | 0 <= i < |rest| ensures IsSpan(ends, spans[0].end, rest[i]) {
      assert rest[i] == spans[i + 1] && IsSpan(ends, from, spans[i + 1]);
    }
    assert spans == [spans[0]] + rest;
    InOrderTail(spans);
    forall p: nat | spans[0].end <= p < |ends| && ends[p].Some? ensures Covered(rest, p) {
      CoveredCons(spans[0], rest, p);
    }
  }

  lemma InOrderTail(spans: seq<Span>)
    requires InOrder(spans) && spans != []
    ensures InOrder(spans[1..])
  {
    forall i, j | 0 <= i < j < |spans[1..]| ensures spans[1..][i].end <= spans[1..][j].start {
      assert spans[i + 1].end <= spans[j + 1].start;
    }
  }

  lemma SameFirst(ends: Ends, from: nat, a: seq<Span>, b: seq<Span>)
    requires Forward(ends) && Leftmost(ends, from, a) && Leftmost(ends, from, b) && a != []
    ensures b != [] && a[0] == b[0]
  {
    assert IsSpan(ends, from, a[0]);
    FirstSpanIsFirstReport(ends, from, b, a[0].start);
    assert IsSpan(ends, from, b[0]);
    FirstSpanIsFirstReport(ends, from, a, b[0].start);
  }

  lemma SameParts(a: seq<Span>, b: seq<Span>)
    requires a != [] && b != [] && a[0] == b[0] && a[1..] == b[1..]
    ensures a == b
  {
    assert a == [a[0]] + a[1..] && b == [b[0]] + b[1..];
  }

  lemma NoneWithoutReports(ends: Ends, from: nat, a: seq<Span>, b: seq<Span>)
    requires Forward(ends) && Leftmost(ends, from, a) && Leftmost(ends, from, b) && a == []
    ensures b == []
  {
    if b != [] {
      SameFirst(ends, from, b, a);
    }
  }

  /** There is only one such list of reports, so the ones removed are those and no others. */
  lemma {:induction false} LeftmostIsUnique(ends: Ends, from: nat, a: seq<Span>, b: seq<Span>)
    requires Forward(ends) && Leftmost(ends, from, a) && Leftmost(ends, from, b)
    ensures a == b
    decreases |a|
  {
    if a == [] {
      NoneWithoutReports(ends, from, a, b);
    } else {
      SameFirst(ends, from, a, b);
      LeftmostTail(ends, from, a);
      LeftmostTail(ends, from, b);
      LeftmostIsUnique(ends, a[0].end, a[1..], b[1..]);
      SameParts(a, b);
    }
  }

  predicate Fits(s: string, from: nat, spans: seq<Span>) {
    && from <= |s| && InOrder(spans)
    && forall i :: 0 <= i < |spans| ==> from <= spans[i].start <= spans[i].end <= |s|
  }

  /** What is left when a list of spans is cut out. */
  function Cut(s: string, from: nat, spans: seq<Span>): string
    requires Fits(s, from, spans)
    decreases |spans|
  {
    if spans == [] then s[from..|s|] else s[from..spans[0].start] + Cut(s, spans[0].end, spans[1..])
  }

  lemma FirstAndRest(s: string, from: nat, to: nat)
    requires from < to <= |s|
    ensures s[from..to] == [s[from]] + s[from + 1..to]
  {
  }

  lemma CutOneOn(s: string, from: nat, spans: seq<Span>)
    requires from < |s| && Fits(s, from + 1, spans)
    ensures Fits(s, from, spans) && Cut(s, from, spans) == [s[from]] + Cut(s, from + 1, spans)
  {
    FirstAndRest(s, from, if spans == [] then |s| else spans[0].start);
    if spans != [] {
      var rest := Cut(s, spans[0].end, spans[1..]);
      assert [s[from]] + s[from + 1..spans[0].start] + rest == [s[from]] + (s[from + 1..spans[0].start] + rest);
    }
  }

  lemma CutReport(s: string, from: nat, end: nat, rest: seq<Span>)
    requires from < end <= |s| && Fits(s, end, rest) && Fits(s, from, [Span(from, end)] + rest)
    ensures Cut(s, from, [Span(from, end)] + rest) == Cut(s, end, rest)
  {
    var all := [Span(from, end)] + rest;
    assert all[1..] == rest;
    assert s[from..from] + Cut(s, end, rest) == Cut(s, end, rest);
  }

  /** The runes kept are what is left when the leftmost reports are cut out. */
  lemma {:induction false} KeptIsCut(s: string, ends: Ends, from: nat)
    requires Forward(ends) && |ends| == |s| && from <= |s|
    ensures Fits(s, from, Spans(ends, from)) && Kept(s, ends, from) == Cut(s, from, Spans(ends, from))
    decreases |s| - from
  {
    SpansAreLeftmost(ends, from);
    if from < |s| {
      match ends[from]
      case Some(end) =>
        KeptIsCut(s, ends, end);
        CutReport(s, from, end, Spans(ends, end));
      case None =>
        KeptIsCut(s, ends, from + 1);
        CutOneOn(s, from, Spans(ends, from + 1));
    }
  }

  // --- The cursor ---

  /** The cursor lies inside a removed report, not at its start or end. */
  ghost predicate Inside(spans: seq<Span>, cursor: nat) {
    exists i :: 0 <= i < |spans| && spans[i].start < cursor < spans[i].end
  }

  /** Where the program puts the cursor before it clamps it to the output. */
  function Landing(ends: Ends, from: nat, kept: nat, cursor: nat): nat
    requires Forward(ends) && from <= cursor <= |ends|
    decreases cursor - from
  {
    if from == cursor then kept
    else
      match ends[from]
      case Some(end) => if end <= cursor then Landing(ends, end, kept, cursor) else from
      case None => Landing(ends, from + 1, kept + 1, cursor)
  }

  function Clamped(cursor: int, size: nat): (c: nat)
    ensures c <= size
  {
    if cursor < 0 || cursor > size then size else cursor
  }

  function Adjusted(s: string, cursor: int): nat {
    var ends := EndsOf(s);
    var landing := Landing(ends, 0, 0, Clamped(cursor, |s|));
    if landing > |Kept(s, ends, 0)| then |Kept(s, ends, 0)| else landing
  }

  lemma InsideCons(first: Span, rest: seq<Span>, cursor: nat)
    ensures Inside([first] + rest, cursor) <==> first.start < cursor < first.end || Inside(rest, cursor)
  {
    var all := [first] + rest;
    if Inside(rest, cursor) {
      var i :| 0 <= i < |rest| && rest[i].start < cursor < rest[i].end;
      assert all[i + 1] == rest[i];
    }
    assert all[0] == first;
    if Inside(all, cursor) && !(first.start < cursor < first.end) {
      var i :| 0 <= i < |all| && all[i].start < cursor < all[i].end;
      assert rest[i - 1] == all[i];
    }
  }

  /** Some report before the cursor was removed. */
  predicate Earlier(spans: seq<Span>, cursor: nat) {
    spans != [] && spans[0].end <= cursor
  }

  lemma NotInsideLater(ends: Ends, from: nat, cursor: nat)
    requires Forward(ends) && cursor <= from <= |ends|
    ensures !Inside(Spans(ends, from), cursor)
  {
  }

  /**
   Outside reports the cursor lands on the number of runes kept before it. Inside one it lands on the report's position
   in the input, which is that number exactly when nothing before it was removed, and too large otherwise.
   */
  lemma {:induction false} LandingCountsKept(ends: Ends, from: nat, kept: nat, cursor: nat)
    requires Forward(ends) && from <= cursor <= |ends| && kept <= from
    ensures var spans := Spans(ends, from);
            var landing := Landing(ends, from, kept, cursor);
            var right := kept + KeptBefore(ends, from, cursor);
            && (!Inside(spans, cursor) ==> landing == right)
            && (Inside(spans, cursor) ==> right <= landing)
            && (Inside(spans, cursor) ==> (landing == right <==> kept == from && !Earlier(spans, cursor)))
    decreases cursor - from
  {
    if from == cursor {
      NotInsideLater(ends, from, cursor);
    } else {
      match ends[from]
      case Some(end) =>
        InsideCons(Span(from, end), Spans(ends, end), cursor);
        if end <= cursor {
          LandingCountsKept(ends, end, kept, cursor);
        }
      case None => LandingCountsKept(ends, from + 1, kept + 1, cursor);
    }
  }

  lemma {:induction false} KeptBeforeIsBounded(s: string, ends: Ends, from: nat, cursor: nat)
    requires Forward(ends) && |ends| == |s| && from <= |s|
    ensures KeptBefore(ends, from, cursor) <= |Kept(s, ends, from)|
    decreases |s| - from
  {
    if from < |s| {
      match ends[from]
      case Some(end) => KeptBeforeIsBounded(s, ends, end, cursor);
      case None => KeptBeforeIsBounded(s, ends, from + 1, cursor);
    }
  }

  /**
   The cursor ends up after exactly the kept runes that were before it, unless it was inside a removed report, another
   report before it was removed too, and some rune after it is kept; and then it never does.
   */
  lemma CursorIsRightExactly(s: string, cursor: int)
    ensures var ends := EndsOf(s);
            var c := Clamped(cursor, |s|);
            Adjusted(s, cursor) == KeptBefore(ends, 0, c) <==>
            !(&& Inside(Spans(ends, 0), c) && Earlier(Spans(ends, 0), c)
              && KeptBefore(ends, 0, c) < |Kept(s, ends, 0)|)
  {
    var ends := EndsOf(s);
    var c := Clamped(cursor, |s|);
    LandingCountsKept(ends, 0, 0, c);
    KeptBeforeIsBounded(s, ends, 0, c);
  }

  /** A cursor outside the input counts as being at its end. */
  lemma StrayCursorIsAtTheEnd(s: string, cursor: int)
    requires cursor < 0 || cursor > |s|
    ensures Adjusted(s, cursor) == |Kept(s, EndsOf(s), 0)| == Adjusted(s, |s|)
  {
    EndIsNotInside(EndsOf(s), 0);
    LandingCountsKept(EndsOf(s), 0, 0, |s|);
    AllAreBefore(s, EndsOf(s), 0);
  }

  lemma EndIsNotInside(ends: Ends, from: nat)
    requires Forward(ends) && from <= |ends|
    ensures !Inside(Spans(ends, from), |ends|)
  {
  }

  lemma {:induction false} AllAreBefore(s: string, ends: Ends, from: nat)
    requires Forward(ends) && |ends| == |s| && from <= |s|
    ensures KeptBefore(ends, from, |s|) == |Kept(s, ends, from)|
    decreases |s| - from
  {
    if from < |s| {
      match ends[from]
      case Some(end) => AllAreBefore(s, ends, end);
      case None => AllAreBefore(s, ends, from + 1);
    }
  }

  /** A mouse report stands here: button 0 at column 1 and row 1. */
  predicate IsClick(s: string, p: nat) {
    && p + 8 <= |s| && s[p] == '[' && s[p + 1] == '<' && s[p + 2] == '0' && s[p + 3] == ';'
    && s[p + 4] == '1' && s[p + 5] == ';' && s[p + 6] == '1' && s[p + 7] == 'M'
  }

  lemma ClickIsReport(s: string, p: nat)
    requires IsClick(s, p)
    ensures Consume(s, p) == Some(p + 8)
  {
    assert DigitsEnd(s, p + 2) == p + 3 && DigitsEnd(s, p + 4) == p + 5 && DigitsEnd(s, p + 6) == p + 7;
    assert FieldsEnd(s, p + 4, 1) == FieldsEnd(s, p + 6, 2) == Some(p + 7);
  }

  lemma TwoReportsAndOne(s: string, ends: Ends)
    requires |s| == |ends| == 17 && Forward(ends)
    requires ends[0] == Some(8) && ends[8] == Some(16) && ends[16] == None
    ensures Kept(s, ends, 0) == [s[16]] && KeptBefore(ends, 0, 10) == 0 && Landing(ends, 0, 0, 10) == 8
  {
    assert Kept(s, ends, 17) == "" && Kept(s, ends, 16) == [s[16]] && Kept(s, ends, 8) == [s[16]];
    assert KeptBefore(ends, 16, 10) == 0 && KeptBefore(ends, 8, 10) == 0;
    assert Landing(ends, 8, 0, 10) == 8;
  }

  /** Two reports and a letter, with the cursor inside the second: it ends up behind the letter, not before it. */
  lemma WrongCursorIsReachable(text: string)
    requires text == "[<0;1;1M[<0;1;1Mx"
    ensures Kept(text, EndsOf(text), 0) == "x"
    ensures KeptBefore(EndsOf(text), 0, 10) == 0 && Adjusted(text, 10) == 1
  {
    ClickIsReport(text, 0);
    ClickIsReport(text, 8);
    LetterIsNoReport(text, 16);
    TwoReportsAndOne(text, EndsOf(text));
  }

  lemma LetterIsNoReport(s: string, p: nat)
    requires p < |s| && s[p] != '[' && s[p] != ESCAPE
    ensures Consume(s, p) == None
  {
  }

  // --- The program's loops ---

  /** The end of the report at a position, read off the input rune by rune. */
  method ConsumeRunes(s: string, start: int) returns (end: Option<nat>)
    ensures end == Consume(s, start)
  {
    if start < 0 || start >= |s| {
      return None;
    }
    var position := start;
    if s[position] == ESCAPE {
      if position + 2 >= |s| || s[position + 1] != '[' || s[position + 2] != '<' {
        return None;
      }
      position := position + 3;
    } else {
      if position + 1 >= |s| || s[position] != '[' || s[position + 1] != '<' {
        return None;
      }
      position := position + 2;
    }
    var fields := ConsumeFields(s, position);
    if fields.None? || fields.value >= |s| || (s[fields.value] != 'M' && s[fields.value] != 'm') {
      return None;
    }
    end := Some(fields.value + 1);
  }

  method SkipDigits(s: string, start: nat) returns (position: nat)
    requires start <= |s|
    ensures position == DigitsEnd(s, start)
  {
    position := start;
    while position < |s| && '0' <= s[position] <= '9'
      invariant start <= position <= |s| && DigitsEnd(s, start) == DigitsEnd(s, position)
    {
      position := position + 1;
    }
  }

  method ConsumeFields(s: string, start: nat) returns (end: Option<nat>)
    requires start <= |s|
    ensures end == FieldsEnd(s, start, 0)
  {
    var position: nat := start;
    for segment := 0 to 3
      invariant position <= |s|
      invariant if segment < 3 then FieldsEnd(s, start, 0) == FieldsEnd(s, position, segment)
                else FieldsEnd(s, start, 0) == Some(position)
    {
      var first := position;
      position := SkipDigits(s, first);
      if position == first {
        return None;
      }
      if segment < 2 {
        if position >= |s| || s[position] != ';' {
          return None;
        }
        position := position + 1;
      }
    }
    end := Some(position);
  }

  /** What reading an input from a position on comes to. */
  function Reader(s: string): nat -> Option<nat> {
    (p: nat) => Consume(s, p)
  }

  /** The table holds, from a position on, what the reader says. */
  predicate Table(reader: nat -> Option<nat>, ends: Ends, from: nat)
    requires from <= |ends|
    decreases |ends| - from
  {
    from < |ends| ==> ends[from] == reader(from) && Table(reader, ends, from + 1)
  }

  lemma {:induction false} TableAt(reader: nat -> Option<nat>, ends: Ends, from: nat, p: nat)
    requires from <= p < |ends| && Table(reader, ends, from)
    ensures ends[p] == reader(p)
    decreases p - from
  {
    if from < p {
      TableAt(reader, ends, from + 1, p);
    }
  }

  lemma {:induction false} TableFrom(reader: nat -> Option<nat>, ends: Ends, from: nat)
    requires from <= |ends| && forall p: nat :: p < |ends| ==> ends[p] == reader(p)
    ensures Table(reader, ends, from)
    decreases |ends| - from
  {
    if from < |ends| {
      TableFrom(reader, ends, from + 1);
    }
  }

  lemma EndsOfIsTable(s: string)
    ensures Table(Reader(s), EndsOf(s), 0)
  {
    TableFrom(Reader(s), EndsOf(s), 0);
  }

  method NextReport(s: string, ghost ends: Ends, index: nat) returns (end: Option<nat>)
    requires |ends| == |s| && Table(Reader(s), ends, 0) && index < |s|
    ensures end == ends[index]
  {
    TableAt(Reader(s), ends, 0, index);
    end := ConsumeRunes(s, index);
  }

  /** The cursor while the input is read: moved with what was removed, until reading passes it. */
  predicate Tracks(ends: Ends, index: nat, kept: nat, clamped: nat, adjusted: int)
    requires Forward(ends) && index <= |ends| && clamped <= |ends|
  {
    if index <= clamped then
      && adjusted == kept + clamped - index
      && Landing(ends, index, kept, clamped) == Landing(ends, 0, 0, clamped)
    else adjusted == Landing(ends, 0, 0, clamped)
  }

  /** What is kept and what is removed, once the input before `index` is read. */
  predicate ReadTo(s: string, ends: Ends, index: nat, output: string, removedAny: bool)
    requires Forward(ends) && |ends| == |s| && index <= |s|
  {
    && output + Kept(s, ends, index) == Kept(s, ends, 0)
    && (removedAny || Spans(ends, index) != [] <==> Spans(ends, 0) != [])
  }

  lemma ReadReport(s: string, ends: Ends, index: nat, end: nat, output: string, removedAny: bool)
    requires Forward(ends) && |ends| == |s| && index < |s| && ends[index] == Some(end)
    requires ReadTo(s, ends, index, output, removedAny)
    ensures ReadTo(s, ends, end, output, true)
  {
  }

  lemma ReadRune(s: string, ends: Ends, index: nat, output: string, removedAny: bool)
    requires Forward(ends) && |ends| == |s| && index < |s| && ends[index].None?
    requires ReadTo(s, ends, index, output, removedAny)
    ensures ReadTo(s, ends, index + 1, output + [s[index]], removedAny)
  {
  }

  /** The cursor after a report is passed over. */
  function Stepped(index: nat, end: nat, clamped: nat, adjusted: int): int {
    if end <= clamped then adjusted - (end - index) else if index < clamped then index else adjusted
  }

  lemma TrackReport(ends: Ends, index: nat, end: nat, kept: nat, clamped: nat, adjusted: int)
    requires Forward(ends) && index < |ends| && clamped <= |ends| && ends[index] == Some(end)
    requires Tracks(ends, index, kept, clamped, adjusted)
    ensures Tracks(ends, end, kept, clamped, Stepped(index, end, clamped, adjusted))
  {
  }

  lemma TrackRune(ends: Ends, index: nat, kept: nat, clamped: nat, adjusted: int)
    requires Forward(ends) && index < |ends| && clamped <= |ends| && ends[index].None?
    requires Tracks(ends, index, kept, clamped, adjusted)
    ensures Tracks(ends, index + 1, kept + 1, clamped, adjusted)
  {
  }

  lemma AllRead(s: string, ends: Ends, output: string, removedAny: bool, clamped: nat, adjusted: int)
    requires Forward(ends) && |ends| == |s| && clamped <= |s| && ReadTo(s, ends, |s|, output, removedAny)
    requires Tracks(ends, |s|, |output|, clamped, adjusted)
    ensures output == Kept(s, ends, 0) && (removedAny <==> Spans(ends, 0) != [])
    ensures adjusted == Landing(ends, 0, 0, clamped)
  {
  }

  method Strip(s: string, ghost ends: Ends) returns (output: string, removedAny: bool)
    requires Forward(ends) && |ends| == |s| && Table(Reader(s), ends, 0)
    ensures output == Kept(s, ends, 0) && (removedAny <==> Spans(ends, 0) != [])
  {
    output, removedAny := "", false;
    var index: nat := 0;
    while index < |s|
      invariant index <= |s| && ReadTo(s, ends, index, output, removedAny)
      decreases |s| - index
    {
      var next := NextReport(s, ends, index);
      if next.Some? {
        ReadReport(s, ends, index, next.value, output, removedAny);
        removedAny := true;
        index := next.value;
      } else {
        ReadRune(s, ends, index, output, removedAny);
        output := output + [s[index]];
        index := index + 1;
      }
    }
  }

  method StripRunes(s: string) returns (output: string, removedAny: bool)
    ensures output == Kept(s, EndsOf(s), 0)
    ensures removedAny <==> Spans(EndsOf(s), 0) != []
  {
    EndsOfIsTable(s);
    output, removedAny := Strip(s, EndsOf(s));
  }

  method StripTracking(s: string, ghost ends: Ends, clamped: nat) returns (output: string, adjusted: int, removedAny: bool)
    requires Forward(ends) && |ends| == |s| && Table(Reader(s), ends, 0) && clamped <= |s|
    ensures output == Kept(s, ends, 0) && (removedAny <==> Spans(ends, 0) != [])
    ensures adjusted == Landing(ends, 0, 0, clamped)
  {
    output, removedAny := "", false;
    adjusted := clamped;
    var index: nat := 0;
    while index < |s|
      invariant index <= |s| && ReadTo(s, ends, index, output, removedAny)
      invariant Tracks(ends, index, |output|, clamped, adjusted)
      decreases |s| - index
    {
      var next := NextReport(s, ends, index);
      if next.Some? {
        ReadReport(s, ends, index, next.value, output, removedAny);
        TrackReport(ends, index, next.value, |output|, clamped, adjusted);
        ghost var moved := Stepped(index, next.value, clamped, adjusted);
        removedAny := true;
        if next.value <= clamped {
          adjusted := adjusted - (next.value - index);
        } else if index < clamped {
          adjusted := index;
        }
        assert adjusted == moved;
        index := next.value;
      } else {
        ReadRune(s, ends, index, output, removedAny);
        TrackRune(ends, index, |output|, clamped, adjusted);
        output := output + [s[index]];
        index := index + 1;
      }
    }
    AllRead(s, ends, output, removedAny, clamped, adjusted);
  }

  method StripRunesWithCursor(s: string, cursor: int) returns (output: string, adjusted: int, removedAny: bool)
    ensures output == Kept(s, EndsOf(s), 0)
    ensures removedAny <==> Spans(EndsOf(s), 0) != []
    ensures adjusted == Adjusted(s, cursor)
  {
    EndsOfIsTable(s);
    output, adjusted, removedAny := StripTracking(s, EndsOf(s), Clamped(cursor, |s|));
    if adjusted < 0 {
      adjusted := 0;
    }
    if adjusted > |output| {
      adjusted := |output|;
    }
  }
}
