/** Recognising terminal mouse reports (SGR form) in typed input and taking them out, with the cursor moved along. */
module MouseSgr {
  import opened Prelude

  // --- The grammar of a report ---

  predicate IsDigit(c: char) {
    '0' <= c <= '9'
  }

  /** The text starts with a number of this many digits. */
  predicate Number(text: string, length: nat) {
    0 < length <= |text| && forall i :: 0 <= i < length ==> IsDigit(text[i])
  }

  predicate FinalLetter(c: char) {
    c == 'M' || c == 'm'
  }

  /** A number, then `more` further numbers each after a semicolon, then the final letter, and nothing else. */
  ghost predicate IsFields(text: string, more: nat)
    decreases more, 1
  {
    exists n: nat :: Splits(text, n, more)
  }

  ghost predicate Splits(text: string, n: nat, more: nat)
    decreases more, 0
  {
    && Number(text, n) && n < |text|
    && if more > 0 then text[n] == ';' && IsFields(text[n + 1..], more - 1)
       else FinalLetter(text[n]) && |text| == n + 1
  }

  const ESCAPE := '\U{1b}'

  /** An introducer, with or without the escape character, and three numbers. */
  ghost predicate IsReport(text: string) {
    if |text| > 0 && text[0] == ESCAPE then |text| > 2 && text[1..3] == "[<" && IsFields(text[3..], 2)
    else |text| > 1 && text[..2] == "[<" && IsFields(text[2..], 2)
  }

  // --- The recogniser ---

  function DigitsEnd(s: string, p: nat): (q: nat)
    requires p <= |s|
    ensures p <= q <= |s|
    ensures forall i :: p <= i < q ==> IsDigit(s[i])
    ensures q < |s| ==> !IsDigit(s[q])
    decreases |s| - p
  {
    if p < |s| && IsDigit(s[p]) then DigitsEnd(s, p + 1) else p
  }

  function IntroEnd(s: string, start: nat): (p: Option<nat>)
    requires start < |s|
    ensures p.Some? ==> start < p.value <= |s|
  {
    if s[start] == ESCAPE then
      if start + 2 >= |s| || s[start + 1] != '[' || s[start + 2] != '<' then None else Some(start + 3)
    else if start + 1 >= |s| || s[start] != '[' || s[start + 1] != '<' then None
    else Some(start + 2)
  }

  /** The end of the numbers from number `segment` on. */
  function FieldsEnd(s: string, p: nat, segment: nat): (q: Option<nat>)
    requires p <= |s| && segment <= 2
    ensures q.Some? ==> p < q.value <= |s|
    decreases 2 - segment
  {
    var end := DigitsEnd(s, p);
    if end == p then None
    else if segment == 2 then Some(end)
    else if end >= |s| || s[end] != ';' then None
    else FieldsEnd(s, end + 1, segment + 1)
  }

  /** The end of the report that starts here, if one does. */
  function Consume(s: string, start: int): (end: Option<nat>)
    ensures end.Some? ==> 0 <= start < end.value <= |s|
  {
    if start < 0 || start >= |s| || IntroEnd(s, start).None? then None
    else
      var fields := FieldsEnd(s, IntroEnd(s, start).value, 0);
      if fields.None? || fields.value >= |s| || !FinalLetter(s[fields.value]) then None
      else Some(fields.value + 1)
  }

  /** The only length of a number that the next character can end. */
  lemma {:induction false} DigitsEndIs(s: string, p: nat, q: nat)
    requires p <= q < |s| && (forall i :: p <= i < q ==> IsDigit(s[i])) && !IsDigit(s[q])
    ensures DigitsEnd(s, p) == q
    decreases q - p
  {
    if p < q {
      DigitsEndIs(s, p + 1, q);
    }
  }

  predicate FieldsReach(s: string, p: nat, segment: nat, end: nat)
    requires p <= end <= |s| && segment <= 2
  {
    p < end && FieldsEnd(s, p, segment) == Some(end - 1) && FinalLetter(s[end - 1])
  }

  lemma {:induction false} ReachedFieldsSpell(s: string, p: nat, segment: nat, end: nat)
    requires p <= end <= |s| && segment <= 2 && FieldsReach(s, p, segment, end)
    ensures IsFields(s[p..end], 2 - segment)
    decreases 2 - segment
  {
    var text := s[p..end];
    var n := DigitsEnd(s, p) - p;
    if segment < 2 {
      ReachedFieldsSpell(s, p + n + 1, segment + 1, end);
      assert text[n + 1..] == s[p + n + 1..end];
    }
    assert Splits(text, n, 2 - segment);
  }

  /** Digits, at least one, from a position on, and then something that is no digit. */
  predicate NumberAt(s: string, p: nat, q: nat) {
    p < q < |s| && (forall i :: p <= i < q ==> IsDigit(s[i])) && !IsDigit(s[q])
  }

  /** Three numbers and what parts them, told by where each number ends. */
  predicate FieldsAt(s: string, p: nat, a: nat, b: nat, c: nat) {
    && NumberAt(s, p, a) && s[a] == ';' && NumberAt(s, a + 1, b) && s[b] == ';'
    && NumberAt(s, b + 1, c) && FinalLetter(s[c])
  }

  /** What is in a slice is in the text, further on. */
  lemma NumberInSlice(s: string, from: nat, to: nat, p: nat, q: nat)
    requires from <= to <= |s| && NumberAt(s[from..to], p, q)
    ensures NumberAt(s, from + p, from + q) && s[from + q] == s[from..to][q]
  {
    var text := s[from..to];
    forall i | from + p <= i < from + q ensures IsDigit(s[i]) {
      assert text[i - from] == s[i];
    }
  }

  lemma FirstNumber(text: string, n: nat, more: nat)
    requires Splits(text, n, more)
    ensures NumberAt(text, 0, n)
    ensures more > 0 ==> text[n] == ';' && IsFields(text[n + 1..], more - 1)
    ensures more == 0 ==> FinalLetter(text[n]) && |text| == n + 1
  {
  }

  lemma SpelledOne(text: string) returns (c: nat)
    requires IsFields(text, 0)
    ensures NumberAt(text, 0, c) && FinalLetter(text[c]) && |text| == c + 1
  {
    c :| Splits(text, c, 0);
    FirstNumber(text, c, 0);
  }

  lemma SpelledTwo(text: string) returns (b: nat, c: nat)
    requires IsFields(text, 1)
    ensures NumberAt(text, 0, b) && text[b] == ';' && NumberAt(text, b + 1, c) && FinalLetter(text[c]) && |text| == c + 1
  {
    b :| Splits(text, b, 1);
    FirstNumber(text, b, 1);
    var rest := text[b + 1..];
    var d := SpelledOne(rest);
    assert rest == text[b + 1..|text|];
    NumberInSlice(text, b + 1, |text|, 0, d);
    c := b + 1 + d;
  }

  lemma RestFields(text: string, a: nat, rest: string, d: nat, e: nat)
    requires NumberAt(text, 0, a) && text[a] == ';' && rest == text[a + 1..]
    requires NumberAt(rest, 0, d) && rest[d] == ';' && NumberAt(rest, d + 1, e) && FinalLetter(rest[e])
    ensures FieldsAt(text, 0, a, a + 1 + d, a + 1 + e)
  {
    assert rest == text[a + 1..|text|];
    NumberInSlice(text, a + 1, |text|, 0, d);
    NumberInSlice(text, a + 1, |text|, d + 1, e);
  }

  lemma SpelledThree(text: string) returns (a: nat, b: nat, c: nat)
    requires IsFields(text, 2)
    ensures FieldsAt(text, 0, a, b, c) && |text| == c + 1
  {
    a :| Splits(text, a, 2);
    FirstNumber(text, a, 2);
    var d, e := SpelledTwo(text[a + 1..]);
    RestFields(text, a, text[a + 1..], d, e);
    b, c := a + 1 + d, a + 1 + e;
  }

  lemma NumbersReach(s: string, p: nat, a: nat, b: nat, c: nat)
    requires FieldsAt(s, p, a, b, c)
    ensures FieldsReach(s, p, 0, c + 1)
  {
    DigitsEndIs(s, p, a);
    DigitsEndIs(s, a + 1, b);
    DigitsEndIs(s, b + 1, c);
    assert FieldsEnd(s, b + 1, 2) == Some(c);
    assert FieldsEnd(s, a + 1, 1) == Some(c);
  }

  lemma FieldsInSlice(s: string, from: nat, to: nat, text: string, a: nat, b: nat, c: nat)
    requires from <= to <= |s| && text == s[from..to] && FieldsAt(text, 0, a, b, c)
    ensures FieldsAt(s, from, from + a, from + b, from + c)
  {
    NumberInSlice(s, from, to, 0, a);
    NumberInSlice(s, from, to, a + 1, b);
    NumberInSlice(s, from, to, b + 1, c);
  }

  lemma SpelledFieldsReach(s: string, p: nat, end: nat, text: string)
    requires p <= end <= |s| && text == s[p..end] && IsFields(text, 2)
    ensures FieldsReach(s, p, 0, end)
  {
    var a, b, c := SpelledThree(text);
    FieldsInSlice(s, p, end, text, a, b, c);
    NumbersReach(s, p, p + a, p + b, p + c);
  }

  lemma FieldsMatch(s: string, p: nat, end: nat)
    requires p <= end <= |s|
    ensures FieldsReach(s, p, 0, end) <==> IsFields(s[p..end], 2)
  {
    if FieldsReach(s, p, 0, end) {
      ReachedFieldsSpell(s, p, 0, end);
    } else if IsFields(s[p..end], 2) {
      SpelledFieldsReach(s, p, end, s[p..end]);
    }
  }

  lemma ConsumeReaches(s: string, start: nat, end: nat)
    requires start < end <= |s|
    ensures Consume(s, start) == Some(end) <==>
            var p := IntroEnd(s, start); p.Some? && p.value <= end && FieldsReach(s, p.value, 0, end)
  {
  }

  lemma EscapedForm(text: string)
    requires |text| > 2 && text[0] == ESCAPE
    ensures IsReport(text) <==> text[1] == '[' && text[2] == '<' && IsFields(text[3..], 2)
  {
    assert text[1..3] == "[<" <==> text[1] == '[' && text[2] == '<';
  }

  lemma BareForm(text: string)
    requires |text| > 1 && text[0] != ESCAPE
    ensures IsReport(text) <==> text[0] == '[' && text[1] == '<' && IsFields(text[2..], 2)
  {
    assert text[..2] == "[<" <==> text[0] == '[' && text[1] == '<';
  }

  lemma EscapedReport(s: string, start: nat, end: nat)
    requires start + 2 < end <= |s| && s[start] == ESCAPE
    ensures Consume(s, start) == Some(end) <==> IsReport(s[start..end])
  {
    var text := s[start..end];
    ConsumeReaches(s, start, end);
    FieldsMatch(s, start + 3, end);
    EscapedForm(text);
    assert text[3..] == s[start + 3..end];
  }

  lemma BareReport(s: string, start: nat, end: nat)
    requires start + 1 < end <= |s| && s[start] != ESCAPE
    ensures Consume(s, start) == Some(end) <==> IsReport(s[start..end])
  {
    var text := s[start..end];
    ConsumeReaches(s, start, end);
    FieldsMatch(s, start + 2, end);
    BareForm(text);
    assert text[2..] == s[start + 2..end];
  }

  /** The recogniser accepts at a position exactly the report that lies there, so there is at most one. */
  lemma RecogniserMatchesGrammar(s: string, start: nat, end: nat)
    requires start <= end <= |s|
    ensures Consume(s, start) == Some(end) <==> IsReport(s[start..end])
  {
    if start + 2 < end && s[start] == ESCAPE {
      EscapedReport(s, start, end);
    } else if start + 1 < end && s[start] != ESCAPE {
      BareReport(s, start, end);
    } else if start < end {
      ConsumeReaches(s, start, end);
    }
  }

  /** With or without the escape character, an introducer, three numbers and M or m make a report. */
  lemma ReportsAsTheyAreSent(a: string, b: string, c: string, last: char, tail: string)
    requires Digits(a) && Digits(b) && Digits(c) && last in "Mm" && tail == a + ";" + b + ";" + c + [last]
    ensures IsReport(['\U{1b}', '[', '<'] + tail) && IsReport(['[', '<'] + tail)
  {
    ThreeNumbers(a, b, c, last, tail);
    var escaped, bare := ['\U{1b}', '[', '<'] + tail, ['[', '<'] + tail;
    assert escaped[3..] == tail && bare[2..] == tail;
    EscapedForm(escaped);
    BareForm(bare);
  }

  predicate Digits(s: string) {
    s != "" && forall i :: 0 <= i < |s| ==> s[i] in "0123456789"
  }

  /** Any three numbers parted by semicolons, with M or m at the end, are what follows the introducer. */
  lemma ThreeNumbers(a: string, b: string, c: string, last: char, text: string)
    requires Digits(a) && Digits(b) && Digits(c) && last in "Mm" && text == a + ";" + b + ";" + c + [last]
    ensures IsFields(text, 2)
  {
    var one := c + [last];
    var two := b + ";" + one;
    assert one[..] == one && Splits(one, |c|, 0);
    assert two[|b| + 1..] == one && Splits(two, |b|, 1);
    assert text[|a| + 1..] == two && Splits(text, |a|, 2);
  }
}
