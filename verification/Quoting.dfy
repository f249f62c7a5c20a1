/** Quoting a word for a POSIX shell, a PowerShell literal and a double-quoted shell literal, and reading it back. */
module Quoting {
  import opened Wrappers

  const QUOTE: char := '\''
  const DOUBLE: char := '"'
  const BACKSLASH: char := '\\'
  const NEWLINE: char := '\n'

  /** Every occurrence of one character replaced. */
  function Replaced(s: string, c: char, replacement: string): string {
    if s == "" then "" else (if s[0] == c then replacement else [s[0]]) + Replaced(s[1..], c, replacement)
  }

  function ShQuote(s: string): string { "'" + Replaced(s, QUOTE, "'\\''") + "'" }

  function PsQuote(s: string): string { "'" + Replaced(s, QUOTE, "''") + "'" }

  // A POSIX shell's word, sections 2.2.1 to 2.2.3 of the POSIX.1-2017 Shell Command Language.

  datatype Mode = Bare | Single | Double

  /** Characters that, bare, end a word or start an expansion, a pattern or a comment. */
  predicate BareSpecial(c: char) { c in " \t\n|&;<>()$`*?[#~=%" }

  /** What a backslash escapes inside double quotes. */
  predicate DoubleSpecial(c: char) { c in "$`\"\\\n" }

  /**
   * The value of the input if it is exactly one word without expansions, from the middle of a
   * word in the given mode. A backslash-newline disappears.
   */
  function ShRead(s: string, mode: Mode): Option<string> {
    if s == "" then if mode.Bare? then Some("") else None
    else
      match mode
      case Single => if s[0] == QUOTE then ShRead(s[1..], Bare) else Then([s[0]], ShRead(s[1..], Single))
      case Double =>
        if s[0] == DOUBLE then ShRead(s[1..], Bare)
        else if s[0] == '$' || s[0] == '`' then None
        else if s[0] == BACKSLASH && |s| > 1 && DoubleSpecial(s[1]) then
          Then(if s[1] == NEWLINE then "" else [s[1]], ShRead(s[2..], Double))
        else Then([s[0]], ShRead(s[1..], Double))
      case Bare =>
        if s[0] == QUOTE then ShRead(s[1..], Single)
        else if s[0] == DOUBLE then ShRead(s[1..], Double)
        else if s[0] == BACKSLASH then
          if |s| == 1 then None else Then(if s[1] == NEWLINE then "" else [s[1]], ShRead(s[2..], Bare))
        else if BareSpecial(s[0]) then None
        else Then([s[0]], ShRead(s[1..], Bare))
  }

  function Then(head: string, rest: Option<string>): Option<string> {
    if rest.None? then None else Some(head + rest.value)
  }

  // One step of the reader each.

  lemma SingleStep(c: char, rest: string)
    ensures ShRead([c] + rest, Single) == if c == QUOTE then ShRead(rest, Bare) else Then([c], ShRead(rest, Single))
  {
    assert ([c] + rest)[1..] == rest;
  }

  lemma BareQuoteStep(rest: string)
    ensures ShRead([QUOTE] + rest, Bare) == ShRead(rest, Single)
  {
    assert ([QUOTE] + rest)[1..] == rest;
  }

  lemma BareEscapeStep(c: char, rest: string)
    requires c != NEWLINE
    ensures ShRead([BACKSLASH, c] + rest, Bare) == Then([c], ShRead(rest, Bare))
  {
    assert ([BACKSLASH, c] + rest)[2..] == rest;
  }

  lemma DoubleEscapeStep(c: char, rest: string)
    requires DoubleSpecial(c) && c != NEWLINE
    ensures ShRead([BACKSLASH, c] + rest, Double) == Then([c], ShRead(rest, Double))
  {
    assert ([BACKSLASH, c] + rest)[2..] == rest;
  }

  lemma DoublePlainStep(c: char, rest: string)
    requires c != DOUBLE && c != BACKSLASH && c != '$' && c != '`'
    ensures ShRead([c] + rest, Double) == Then([c], ShRead(rest, Double))
  {
    assert ([c] + rest)[1..] == rest;
  }

  lemma {:induction false} SingleReads(s: string)
    ensures ShRead(Replaced(s, QUOTE, "'\\''") + "'", Single) == Some(s)
  {
    if s == "" {
      assert ("" + "'") == [QUOTE] + "";
      SingleStep(QUOTE, "");
    } else {
      var rest := Replaced(s[1..], QUOTE, "'\\''") + "'";
      SingleReads(s[1..]);
      var whole := Replaced(s, QUOTE, "'\\''") + "'";
      if s[0] == QUOTE {
        assert whole == [QUOTE] + ([BACKSLASH, QUOTE] + ([QUOTE] + rest));
        SingleStep(QUOTE, [BACKSLASH, QUOTE] + ([QUOTE] + rest));
        BareEscapeStep(QUOTE, [QUOTE] + rest);
        BareQuoteStep(rest);
      } else {
        assert whole == [s[0]] + rest;
        SingleStep(s[0], rest);
      }
      assert s == [s[0]] + s[1..];
    }
  }

  /** For every string, a shell reads the quoted form as one word equal to it. */
  lemma ShQuoteReads(s: string)
    ensures ShRead(ShQuote(s), Bare) == Some(s)
  {
    SingleReads(s);
    assert ShQuote(s)[1..] == Replaced(s, QUOTE, "'\\''") + "'";
  }

  // A PowerShell single-quoted literal. Four typographic marks are quotes as well, and any two
  // quotes in a row stand for the second of them.

  const TYPOGRAPHIC: string := "\U{2018}\U{2019}\U{201A}\U{201B}"

  predicate PsQuoteChar(c: char) { c == QUOTE || c in TYPOGRAPHIC }

  /** The literal's value from inside it, if the literal is all of the input. */
  function PsBody(s: string): Option<string> {
    if s == "" then None
    else if !PsQuoteChar(s[0]) then Then([s[0]], PsBody(s[1..]))
    else if |s| > 1 && PsQuoteChar(s[1]) then Then([s[1]], PsBody(s[2..]))
    else if |s| == 1 then Some("")
    else None
  }

  function PsRead(s: string): Option<string> { if s != "" && PsQuoteChar(s[0]) then PsBody(s[1..]) else None }

  predicate HasTypographic(s: string) { exists i :: 0 <= i < |s| && s[i] in TYPOGRAPHIC }

  function PsText(s: string): string { Replaced(s, QUOTE, "''") + "'" }

  lemma PsPlainStep(c: char, rest: string)
    requires !PsQuoteChar(c)
    ensures PsBody([c] + rest) == Then([c], PsBody(rest))
  {
    assert ([c] + rest)[1..] == rest;
  }

  lemma PsPairStep(c: char, d: char, rest: string)
    requires PsQuoteChar(c) && PsQuoteChar(d)
    ensures PsBody([c, d] + rest) == Then([d], PsBody(rest))
  {
    assert ([c, d] + rest)[2..] == rest;
  }

  lemma PsTextFirst(s: string)
    requires s != ""
    ensures PsText(s) == (if s[0] == QUOTE then "''" else [s[0]]) + PsText(s[1..])
  {
  }

  lemma {:induction false} PsTextReads(s: string)
    requires !HasTypographic(s)
    ensures PsBody(PsText(s)) == Some(s)
  {
    if s != "" {
      PsTextFirst(s);
      assert s == [s[0]] + s[1..];
      assert forall i :: 0 <= i < |s[1..]| ==> s[1..][i] == s[i + 1];
      PsTextReads(s[1..]);
      if s[0] == QUOTE {
        PsPairStep(QUOTE, QUOTE, PsText(s[1..]));
      } else {
        assert s[0] !in TYPOGRAPHIC;
        PsPlainStep(s[0], PsText(s[1..]));
      }
    }
  }

  /** One quote too many in front: what is read is no longer than the text it came from. */
  lemma {:induction false} OffByOneReads(s: string)
    ensures PsBody([QUOTE] + PsText(s)).Some? ==> |PsBody([QUOTE] + PsText(s)).value| <= |s|
    decreases |s|, 0
  {
    if s == "" {
      PsPairStep(QUOTE, QUOTE, "");
      assert [QUOTE] + PsText(s) == [QUOTE, QUOTE] + "";
    } else {
      PsTextFirst(s);
      if s[0] == QUOTE {
        PsPairStep(QUOTE, QUOTE, [QUOTE] + PsText(s[1..]));
        assert [QUOTE] + PsText(s) == [QUOTE, QUOTE] + ([QUOTE] + PsText(s[1..]));
        OffByOneReads(s[1..]);
      } else {
        assert [QUOTE] + PsText(s) == [QUOTE, s[0]] + PsText(s[1..]);
        if PsQuoteChar(s[0]) {
          PsPairStep(QUOTE, s[0], PsText(s[1..]));
          PsTextShrinks(s[1..]);
        }
      }
    }
  }

  /** Reading never gains a character, and with a typographic quote it loses one. */
  lemma {:induction false} PsTextShrinks(s: string)
    ensures PsBody(PsText(s)).Some? ==>
      |PsBody(PsText(s)).value| <= |s| && (HasTypographic(s) ==> |PsBody(PsText(s)).value| < |s|)
    decreases |s|, 1
  {
    if s != "" {
      PsTextFirst(s);
      var rest := s[1..];
      if s[0] !in TYPOGRAPHIC {
        assert HasTypographic(s) ==> HasTypographic(rest) by {
          if i :| 0 <= i < |s| && s[i] in TYPOGRAPHIC {
            assert rest[i - 1] in TYPOGRAPHIC;
          }
        }
        PsTextShrinks(rest);
        if s[0] == QUOTE {
          PsPairStep(QUOTE, QUOTE, PsText(rest));
        } else {
          PsPlainStep(s[0], PsText(rest));
        }
      } else {
        TypographicFirst(s[0], rest);
      }
    }
  }

  lemma {:induction false} TypographicFirst(c: char, rest: string)
    requires c in TYPOGRAPHIC
    ensures PsBody([c] + PsText(rest)).Some? ==> |PsBody([c] + PsText(rest)).value| <= |rest|
    decreases |rest|, 2
  {
    var text := [c] + PsText(rest);
    if rest == "" {
      PsPairStep(c, QUOTE, "");
      assert text == [c, QUOTE] + "";
    } else {
      PsTextFirst(rest);
      if rest[0] == QUOTE {
        PsPairStep(c, QUOTE, [QUOTE] + PsText(rest[1..]));
        assert text == [c, QUOTE] + ([QUOTE] + PsText(rest[1..]));
        OffByOneReads(rest[1..]);
      } else {
        assert text == [c, rest[0]] + PsText(rest[1..]);
        if PsQuoteChar(rest[0]) {
          PsPairStep(c, rest[0], PsText(rest[1..]));
          PsTextShrinks(rest[1..]);
        }
      }
    }
  }

  /** PowerShell reads the quoted form back as the string if and only if it has no typographic quote. */
  lemma PsQuoteReads(s: string)
    ensures PsRead(PsQuote(s)) == Some(s) <==> !HasTypographic(s)
  {
    assert PsQuote(s)[1..] == PsText(s);
    if HasTypographic(s) {
      PsTextShrinks(s);
    } else {
      PsTextReads(s);
    }
  }

  /** One that has: quoted, it never ends. */
  lemma ApostropheIsLost()
    ensures PsRead(PsQuote("it\U{2019}s")) != Some("it\U{2019}s") && PsRead(PsQuote("\U{2019}")) == None
  {
    assert "it\U{2019}s"[2] in TYPOGRAPHIC && "\U{2019}"[0] in TYPOGRAPHIC;
    PsQuoteReads("it\U{2019}s");
    var s := "\U{2019}";
    assert Replaced(s[1..], QUOTE, "''") == "";
    assert PsText(s) == [s[0], QUOTE] + "";
    PsPairStep(s[0], QUOTE, "");
    assert PsQuote(s)[1..] == PsText(s);
  }

  // Escaping inside double quotes.

  function Escaped(s: string, special: string): string {
    if s == "" then "" else Escaped(s[..|s| - 1], special) + EscapedChar(s[|s| - 1], special)
  }

  function EscapedChar(c: char, special: string): string { if c in special then [BACKSLASH, c] else [c] }

  method EscapeInDoubleQuotes(s: string, special: string) returns (out: string)
    ensures out == Escaped(s, special)
  {
    out := "";
    for i := 0 to |s|
      invariant out == Escaped(s[..i], special)
    {
      assert s[..i + 1][..i] == s[..i];
      if s[i] in special {
        out := out + [BACKSLASH];
      }
      out := out + [s[i]];
    }
    assert s[..|s|] == s;
  }

  const SHELL_SPECIAL: string := "\\\"$`"

  lemma {:induction false} EscapedFront(s: string, special: string)
    requires s != ""
    ensures Escaped(s, special) == EscapedChar(s[0], special) + Escaped(s[1..], special)
  {
    if |s| == 1 {
      assert s[..0] == "" && s[1..] == "";
    } else {
      var front := s[..|s| - 1];
      EscapedFront(front, special);
      assert front[1..] == s[1..][..|s| - 2];
      assert s[1..][|s| - 2] == s[|s| - 1];
    }
  }

  lemma {:induction false} DoubleReads(s: string)
    ensures ShRead(Escaped(s, SHELL_SPECIAL) + "\"", Double) == Some(s)
  {
    if s == "" {
      assert ("" + "\"")[1..] == "";
    } else {
      var rest := Escaped(s[1..], SHELL_SPECIAL) + "\"";
      var whole := Escaped(s, SHELL_SPECIAL) + "\"";
      DoubleReads(s[1..]);
      EscapedFront(s, SHELL_SPECIAL);
      if s[0] in SHELL_SPECIAL {
        assert whole == [BACKSLASH, s[0]] + rest;
        DoubleEscapeStep(s[0], rest);
      } else {
        assert whole == [s[0]] + rest;
        DoublePlainStep(s[0], rest);
      }
      assert s == [s[0]] + s[1..];
    }
  }

  /** For every string, a shell reads the double-quoted literal a client declares as that string. */
  lemma EscapedReads(s: string)
    ensures ShRead("\"" + Escaped(s, SHELL_SPECIAL) + "\"", Bare) == Some(s)
  {
    DoubleReads(s);
    var body := Escaped(s, SHELL_SPECIAL) + "\"";
    assert "\"" + Escaped(s, SHELL_SPECIAL) + "\"" == "\"" + body;
    assert ("\"" + body)[1..] == body;
  }
}
