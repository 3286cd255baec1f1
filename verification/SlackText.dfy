/**
 Printing literal text as Markdown (tools/slack_apply.py, lines 262-277), and reading it back by the rules of
 CommonMark 0.31.2: character references (section 2.5) and code spans (section 6.1).
 */
module SlackText {
  import opened EventStream

  // ------------------------------------------------------------------ escape

  const SPECIAL := "&\\`*_{}[]<>~#!|()+.-"

  function Decimal(n: nat): string {
    if n < 10 then ["0123456789"[n]] else Decimal(n / 10) + ["0123456789"[n % 10]]
  }

  function Reference(c: char): string {
    "&#" + Decimal(c as int) + ";"
  }

  function Escape(text: string): string {
    if text == "" then ""
    else (if text[0] in SPECIAL then Reference(text[0]) else [text[0]]) + Escape(text[1..])
  }

  // ------------------------------------------------------------------ reading character references

  predicate IsDigit(c: char) {
    '0' <= c <= '9'
  }

  /** How many digits stand at the front. */
  function DigitRun(s: string): (n: nat)
    ensures n <= |s|
  {
    if s != "" && IsDigit(s[0]) then 1 + DigitRun(s[1..]) else 0
  }

  function Number(digits: string): nat {
    if digits == "" then 0
    else
      var last := digits[|digits| - 1];
      10 * Number(digits[..|digits| - 1]) + if IsDigit(last) then last as int - '0' as int else 0
  }

  /** A code point, or the replacement character for what is none. */
  function CodePoint(n: nat): char {
    if 0 < n < 0xD800 || 0xE000 <= n < 0x11_0000 then n as char else '\U{FFFD}'
  }

  /** What a reader makes of a reference that is not a decimal number: where it ends and what it stands for. */
  type OtherReferences = string -> Option<(nat, string)>

  /** The reference at the front of `s`, if one stands there; a decimal one has one to seven digits. */
  function ReferenceAt(s: string, others: OtherReferences): Option<(nat, string)> {
    if |s| > 2 && s[0] == '&' && s[1] == '#' then
      var n := DigitRun(s[2..]);
      if 1 <= n <= 7 && 2 + n < |s| && s[2 + n] == ';' then Some((3 + n, [CodePoint(Number(s[2..2 + n]))]))
        else others(s)
    else others(s)
  }

  function Decode(s: string, others: OtherReferences): string
    decreases |s|
  {
    if s == "" then ""
    else
      var reference := if s[0] == '&' then ReferenceAt(s, others) else None;
      if reference.Some? && 0 < reference.value.0 <= |s|
      then reference.value.1 + Decode(s[reference.value.0..], others)
      else [s[0]] + Decode(s[1..], others)
  }

  lemma {:induction false} DecimalReads(n: nat)
    ensures Decimal(n) != "" && Number(Decimal(n)) == n
    ensures forall i :: 0 <= i < |Decimal(n)| ==> IsDigit(Decimal(n)[i])
    ensures n < 1000 ==> |Decimal(n)| <= 3
  {
    if n >= 10 {
      DecimalReads(n / 10);
      assert Decimal(n)[..|Decimal(n)| - 1] == Decimal(n / 10);
      if n < 1000 && n / 10 >= 10 {
        assert |Decimal(n / 100)| == 1;
      }
    } else {
      assert Decimal(n)[..0] == "";
    }
  }

  lemma {:induction false} DigitRunOf(digits: string, rest: string)
    requires (forall i :: 0 <= i < |digits| ==> IsDigit(digits[i])) && (rest != "" ==> !IsDigit(rest[0]))
    ensures DigitRun(digits + rest) == |digits|
  {
    if digits == "" {
      assert digits + rest == rest;
    } else {
      DigitRunOf(digits[1..], rest);
      assert (digits + rest)[1..] == digits[1..] + rest;
    }
  }

  lemma SpecialIsSmall(c: char)
    requires c in SPECIAL
    ensures 0 < c as int < 1000
  {
  }

  /** A written reference reads as its character. */
  lemma ReferenceReads(c: char, rest: string, others: OtherReferences)
    requires 0 < c as int < 1000
    ensures ReferenceAt(Reference(c) + rest, others) == Some((|Reference(c)|, [c]))
  {
    var digits := Decimal(c as int);
    DecimalReads(c as int);
    var s := Reference(c) + rest;
    DigitRunOf(digits, ";" + rest);
    assert s[2..] == digits + (";" + rest);
    assert s[2..2 + |digits|] == digits;
  }

  /** Decoding character references undoes escape, whatever else the reader decodes. */
  lemma {:induction false} DecodeUndoesEscape(text: string, others: OtherReferences)
    ensures Decode(Escape(text), others) == text
  {
    if text != "" {
      var c, rest := text[0], Escape(text[1..]);
      DecodeUndoesEscape(text[1..], others);
      if c in SPECIAL {
        SpecialIsSmall(c);
        ReferenceReads(c, rest, others);
        var s := Reference(c) + rest;
        assert s[0] == '&' && s[|Reference(c)|..] == rest;
        assert text == [c] + text[1..];
      } else {
        assert c != '&' by { assert '&' in SPECIAL; }
        assert ([c] + rest)[1..] == rest;
        assert text == [c] + text[1..];
      }
    }
  }

  lemma NotSpecial(c: char)
    requires IsDigit(c) || c == ';'
    ensures c !in SPECIAL
  {
  }

  lemma ReferenceCharacters(c: char, x: char)
    requires x in Reference(c)
    ensures x == '&' || x == '#' || x == ';' || IsDigit(x)
  {
    DecimalReads(c as int);
  }

  /** No markup survives: of the special characters only those that make up references are left. */
  lemma {:induction false} EscapeIsInert(text: string, x: char)
    requires x in Escape(text) && x in SPECIAL
    ensures x == '&' || x == '#'
  {
    hide Reference, IsDigit;
    var c := text[0];
    if x in Escape(text[1..]) {
      EscapeIsInert(text[1..], x);
    } else if c in SPECIAL {
      ReferenceCharacters(c, x);
      if IsDigit(x) || x == ';' {
        NotSpecial(x);
      }
    }
  }

  // ------------------------------------------------------------------ code_span

  function Ticks(n: nat): string {
    seq(n, _ => '`')
  }

  /** The end of the run of backticks at `from`. */
  function RunEnd(s: string, from: nat): (end: nat)
    requires from <= |s|
    ensures from <= end <= |s|
    ensures forall i :: from <= i < end ==> s[i] == '`'
    ensures end < |s| ==> s[end] != '`'
    decreases |s| - from
  {
    if from < |s| && s[from] == '`' then RunEnd(s, from + 1) else from
  }

  function Max(a: nat, b: nat): nat {
    if a < b then b else a
  }

  /** The longest run of backticks behind `from`. */
  function LongestRun(s: string, from: nat): nat
    requires from <= |s|
    decreases |s| - from
  {
    if from == |s| then 0
    else if s[from] != '`' then LongestRun(s, from + 1)
    else Max(RunEnd(s, from) - from, LongestRun(s, RunEnd(s, from)))
  }

  /** Python's str.strip() leaves something. */
  predicate NotBlank(text: string, white: char -> bool) {
    exists i :: 0 <= i < |text| && !white(text[i])
  }

  predicate Padded(text: string, white: char -> bool)
    requires text != ""
  {
    || text[0] == '`' || text[|text| - 1] == '`'
    || (text[0] == ' ' && text[|text| - 1] == ' ' && NotBlank(text, white))
  }

  datatype Span = Span(text: string) | Unsupported

  /** code_span: None of the texts that Markdown would have to wrap is supported. */
  function CodeSpan(text: string, white: char -> bool): (span: Span)
    ensures span.Unsupported? <==> text == "" || '\n' in text || '\r' in text
  {
    if text == "" || '\n' in text || '\r' in text then Unsupported
    else
      var fence := Ticks(LongestRun(text, 0) + 1);
      var pad := if Padded(text, white) then " " else "";
      Span(fence + pad + text + pad + fence)
  }

  // ------------------------------------------------------------------ reading code spans

  /** Where the next backtick string of exactly `n` backticks begins. */
  function FindClose(s: string, from: nat, n: nat): Option<nat>
    requires from <= |s|
    decreases |s| - from
  {
    if from == |s| then None
    else if s[from] != '`' then FindClose(s, from + 1, n)
    else if RunEnd(s, from) - from == n then Some(from)
    else FindClose(s, RunEnd(s, from), n)
  }

  /** One space is stripped from both ends unless the content is all spaces. */
  function Stripped(content: string): string {
    if |content| >= 2 && content[0] == ' ' && content[|content| - 1] == ' '
      && (exists i :: 0 <= i < |content| && content[i] != ' ')
    then content[1..|content| - 1] else content
  }

  /** The code span at the front of `s`: its content and where it ends. */
  function ReadSpan(s: string): Option<(string, nat)> {
    var n := RunEnd(s, 0);
    if n == 0 then None
    else
      match FindClose(s, n, n)
      case None => None
      case Some(close) => if n <= close && close + n <= |s| then Some((Stripped(s[n..close]), close + n)) else None
  }

  lemma {:induction false} TicksEnd(k: nat, rest: string, from: nat)
    requires from <= k && (rest != "" ==> rest[0] != '`')
    ensures RunEnd(Ticks(k) + rest, from) == k
    decreases k - from
  {
    if from < k {
      TicksEnd(k, rest, from + 1);
    }
  }

  /** Runs inside `middle` end inside it when it does not end in a backtick. */
  lemma {:induction false} RunEndInside(front: string, middle: string, back: string, from: nat)
    requires from <= |middle|
    requires if middle != "" then middle[|middle| - 1] != '`' || (back != "" ==> back[0] != '`')
               else back != "" ==> back[0] != '`'
    ensures RunEnd(front + middle + back, |front| + from) == |front| + RunEnd(middle, from)
            || (from == |middle| && back != "" && back[0] == '`')
    decreases |middle| - from
  {
    var s := front + middle + back;
    if from < |middle| {
      assert s[|front| + from] == middle[from];
      if middle[from] == '`' {
        RunEndInside(front, middle, back, from + 1);
      }
    } else if back != "" {
      assert s[|front| + from] == back[0];
    }
  }

  /** Surroundings without backticks do not change the longest run. */
  lemma {:induction false} LongestInside(pad: string, text: string, from: nat)
    requires from <= |text| && (pad == "" || pad == " ")
    ensures LongestRun(pad + text + pad, |pad| + from) == LongestRun(text, from)
    decreases |text| - from
  {
    var s := pad + text + pad;
    if from < |text| {
      assert s[|pad| + from] == text[from];
      if text[from] == '`' {
        RunEndInside(pad, text, pad, from);
        assert text[from..] != "";
        LongestInside(pad, text, RunEnd(text, from));
      } else {
        LongestInside(pad, text, from + 1);
      }
    } else if pad == " " {
      assert s[|pad| + from] == ' ';
    }
  }

  /** No run inside is as long as the fence, so the closing fence is the first that fits. */
  lemma {:induction false} ClosesAtEnd(front: string, body: string, n: nat, rest: string, from: nat)
    requires from <= |body| && n > 0 && body != "" && body[|body| - 1] != '`' && (rest != "" ==> rest[0] != '`')
    requires LongestRun(body, from) < n
    ensures FindClose(front + body + (Ticks(n) + rest), |front| + from, n) == Some(|front| + |body|)
    decreases |body| - from
  {
    var back := Ticks(n) + rest;
    var s := front + body + back;
    if from == |body| {
      assert s[|front| + from] == '`';
      FenceEnd(front + body, n, rest, 0);
    } else {
      assert s[|front| + from] == body[from];
      if body[from] == '`' {
        RunEndInside(front, body, back, from);
        ClosesAtEnd(front, body, n, rest, RunEnd(body, from));
      } else {
        ClosesAtEnd(front, body, n, rest, from + 1);
      }
    }
  }

  lemma {:induction false} FenceEnd(front: string, n: nat, rest: string, at: nat)
    requires at <= n && (rest != "" ==> rest[0] != '`')
    ensures RunEnd(front + (Ticks(n) + rest), |front| + at) == |front| + n
    decreases n - at
  {
    var s := front + (Ticks(n) + rest);
    if at < n {
      assert s[|front| + at] == '`';
      FenceEnd(front, n, rest, at + 1);
    } else if rest != "" {
      assert s[|front| + n] == rest[0];
    }
  }

  /** What the reader strips from the padded text is the padding, with one exception. */
  predicate LosesBlanks(text: string, white: char -> bool) {
    && |text| >= 2 && text[0] == ' ' && text[|text| - 1] == ' '
    && !NotBlank(text, white) && exists i :: 0 <= i < |text| && text[i] != ' '
  }

  lemma PaddingIsStripped(text: string, white: char -> bool)
    requires text != "" && white(' ') && !white('`')
    ensures var pad := if Padded(text, white) then " " else "";
            Stripped(pad + text + pad) == text <==> !LosesBlanks(text, white)
  {
    if Padded(text, white) {
      var content := " " + text + " ";
      assert exists i :: 0 <= i < |text| && text[i] != ' ';
      var i :| 0 <= i < |text| && text[i] != ' ';
      assert content[1 + i] == text[i];
      assert content[1..|content| - 1] == text;
      assert NotBlank(text, white);
    } else {
      assert "" + text + "" == text;
      if LosesBlanks(text, white) {
        assert |Stripped(text)| == |text| - 2;
      }
    }
  }

  /**
   A code span reads back as exactly its text, and ends where it ends, unless the text is blank, begins and
   ends with a space, and contains blanks other than spaces.
   */
  lemma CodeSpanReadsBack(text: string, white: char -> bool, rest: string)
    requires CodeSpan(text, white).Span? && white(' ') && !white('`') && (rest != "" ==> rest[0] != '`')
    ensures var printed := CodeSpan(text, white).text;
            && ReadSpan(printed + rest).Some? && ReadSpan(printed + rest).value.1 == |printed|
            && (ReadSpan(printed + rest).value.0 == text <==> !LosesBlanks(text, white))
  {
    hide Stripped, LosesBlanks, NotBlank, Padded, LongestRun, ReadSpan;
    var pad := if Padded(text, white) then " " else "";
    BodyEnds(text, white);
    BodyRuns(text, white);
    FencedReads(pad + text + pad, LongestRun(text, 0) + 1, rest);
    PaddingIsStripped(text, white);
    var fence := Ticks(LongestRun(text, 0) + 1);
    assert CodeSpan(text, white).text == fence + (pad + text + pad) + fence;
  }

  /** Between two fences longer than its own runs, a body is read as a code span. */
  lemma FencedReads(body: string, n: nat, rest: string)
    requires body != "" && body[0] != '`' && body[|body| - 1] != '`' && LongestRun(body, 0) < n
    requires (rest != "" ==> rest[0] != '`')
    ensures ReadSpan(Ticks(n) + body + Ticks(n) + rest) == Some((Stripped(body), |Ticks(n) + body + Ticks(n)|))
  {
    hide FindClose, LongestRun, RunEnd, Stripped, Ticks, ReadSpan;
    var fence, back := Ticks(n), Ticks(n) + rest;
    var s := fence + body + fence + rest;
    assert |fence| == n by { FenceLength(n); }
    assert s == fence + body + back && s == fence + (body + back);
    TicksEnd(n, body + back, 0);
    ClosesAtEnd(fence, body, n, rest, 0);
    SpanBetween(s, n, n + |body|);
    assert s[n..n + |body|] == body;
  }

  lemma FenceLength(n: nat)
    ensures |Ticks(n)| == n
  {
  }

  lemma SpanBetween(s: string, n: nat, close: nat)
    requires 0 < n <= |s| && RunEnd(s, 0) == n && FindClose(s, n, n) == Some(close) && n <= close && close + n <= |s|
    ensures ReadSpan(s) == Some((Stripped(s[n..close]), close + n))
  {
    hide FindClose, RunEnd, Stripped;
  }

  lemma BodyEnds(text: string, white: char -> bool)
    requires text != ""
    ensures var pad := if Padded(text, white) then " " else "";
            var body := pad + text + pad;
            body[0] != '`' && body[|body| - 1] != '`'
  {
  }

  lemma BodyRuns(text: string, white: char -> bool)
    requires text != ""
    ensures var pad := if Padded(text, white) then " " else "";
            LongestRun(pad + text + pad, 0) == LongestRun(text, 0)
  {
    var pad := if Padded(text, white) then " " else "";
    LongestInside(pad, text, 0);
    if pad == " " {
      assert LongestRun(pad + text + pad, 0) == LongestRun(pad + text + pad, 1);
    }
  }

  /** In particular every text whose only blanks are spaces reads back. */
  lemma SpacesReadBack(text: string, white: char -> bool, rest: string)
    requires CodeSpan(text, white).Span? && white(' ') && !white('`') && (rest != "" ==> rest[0] != '`')
    requires forall i :: 0 <= i < |text| && white(text[i]) ==> text[i] == ' '
    ensures ReadSpan(CodeSpan(text, white).text + rest) == Some((text, |CodeSpan(text, white).text|))
  {
    CodeSpanReadsBack(text, white, rest);
  }

  /** The exception is met: a tab between two spaces is read back as the tab alone. */
  lemma BlanksAroundTabAreLost(white: char -> bool)
    requires white(' ') && white('\t') && !white('`')
    ensures CodeSpan(" \t ", white).Span? && ReadSpan(CodeSpan(" \t ", white).text).Some?
    ensures ReadSpan(CodeSpan(" \t ", white).text).value.0 != " \t "
  {
    hide ReadSpan;
    var text := " \t ";
    assert text[1] != ' ';
    CodeSpanReadsBack(text, white, "");
    assert CodeSpan(text, white).text + "" == CodeSpan(text, white).text;
  }
}
