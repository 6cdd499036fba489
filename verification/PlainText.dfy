/** The Markdown and HTML escaper of the decision brief (api/decision_brief.py): a chain of
    replacements over the whole text, which comes to one code per character. */
module PlainText {

  const BACKSLASH: char := '\\'
  const NEWLINE: char := '\n'

  // str.replace of one character by a text.
  function Replace(s: string, c: char, instead: string): string {
    if s == [] then [] else (if s[0] == c then instead else [s[0]]) + Replace(s[1..], c, instead)
  }

  predicate Structure(c: char) {
    c in {BACKSLASH, '`', '*', '_', '[', ']', '(', ')', '#', '!', '|'}
  }

  // The regular expression substitution that puts a backslash before structural characters.
  function Backslashed(s: string): string {
    if s == [] then [] else (if Structure(s[0]) then [BACKSLASH, s[0]] else [s[0]]) + Backslashed(s[1..])
  }

  // html.escape with quotes.
  function HtmlEscaped(s: string): string {
    Replace(Replace(Replace(Replace(Replace(s, '&', "&amp;"), '<', "&lt;"), '>', "&gt;"), '\"', "&quot;"), '\'', "&#x27;")
  }

  function Escaped(s: string): string {
    Replace(HtmlEscaped(Backslashed(s)), NEWLINE, "<br>")
  }

  // Normalisation: every line end becomes one newline, a tab a space.
  function JoinCrLf(s: string): string {
    if |s| >= 2 && s[0] == '\r' && s[1] == NEWLINE then [NEWLINE] + JoinCrLf(s[2..])
    else if s == [] then []
    else [s[0]] + JoinCrLf(s[1..])
  }

  function Normalized(s: string): string {
    Replace(Replace(Replace(Replace(JoinCrLf(s), '\r', "\n"), '\U{2028}', "\n"), '\U{2029}', "\n"), '\t', " ")
  }

  // `control` tells the characters whose Unicode category begins with C.
  function Printable(s: string, control: char -> bool): string {
    if s == [] then [] else
    (if s[0] == NEWLINE || !control(s[0]) then [s[0]] else []) + Printable(s[1..], control)
  }

  const NOT_DECLARED := "Not declared"

  // _plain_text of a string; any other value, and the empty text, give NOT_DECLARED.
  function Plain(value: string, control: char -> bool): string {
    if value == "" then NOT_DECLARED else
    var escaped := Escaped(Printable(Normalized(value), control));
    if escaped == "" then NOT_DECLARED else escaped
  }

  // One code per character -------------------------------------------------------------------

  function Code(c: char): string {
    if Structure(c) then [BACKSLASH, c]
    else if c == '&' then "&amp;"
    else if c == '<' then "&lt;"
    else if c == '>' then "&gt;"
    else if c == '\"' then "&quot;"
    else if c == '\'' then "&#x27;"
    else if c == NEWLINE then "<br>"
    else [c]
  }

  function Encoded(s: string): string {
    if s == [] then [] else Code(s[0]) + Encoded(s[1..])
  }

  lemma {:induction false} ReplaceConcat(s: string, t: string, c: char, instead: string)
    ensures Replace(s + t, c, instead) == Replace(s, c, instead) + Replace(t, c, instead)
    decreases s
  {
    if s == [] {
      assert s + t == t;
    } else {
      assert (s + t)[1..] == s[1..] + t;
      ReplaceConcat(s[1..], t, c, instead);
    }
  }

  lemma HtmlConcat(s: string, t: string)
    ensures HtmlEscaped(s + t) == HtmlEscaped(s) + HtmlEscaped(t)
  {
    ReplaceConcat(s, t, '&', "&amp;");
    var s1, t1 := Replace(s, '&', "&amp;"), Replace(t, '&', "&amp;");
    ReplaceConcat(s1, t1, '<', "&lt;");
    var s2, t2 := Replace(s1, '<', "&lt;"), Replace(t1, '<', "&lt;");
    ReplaceConcat(s2, t2, '>', "&gt;");
    var s3, t3 := Replace(s2, '>', "&gt;"), Replace(t2, '>', "&gt;");
    ReplaceConcat(s3, t3, '\"', "&quot;");
    ReplaceConcat(Replace(s3, '\"', "&quot;"), Replace(t3, '\"', "&quot;"), '\'', "&#x27;");
  }

  // A text without the character is left alone; in particular what a replacement put in.
  lemma {:induction false} ReplaceSkips(s: string, c: char, instead: string)
    requires c !in s
    ensures Replace(s, c, instead) == s
    decreases s
  {
    if s != [] {
      assert s == [s[0]] + s[1..];
      ReplaceSkips(s[1..], c, instead);
    }
  }

  lemma ReplaceOne(c: char, d: char, instead: string)
    ensures Replace([c], d, instead) == if c == d then instead else [c]
  {
    assert Replace([c], d, instead) == (if c == d then instead else [c]) + Replace([], d, instead);
  }

  function HtmlCode(c: char): string {
    if c == '&' then "&amp;" else if c == '<' then "&lt;" else if c == '>' then "&gt;"
    else if c == '\"' then "&quot;" else if c == '\'' then "&#x27;" else [c]
  }

  lemma HtmlOne(c: char)
    ensures HtmlEscaped([c]) == HtmlCode(c)
  {
    hide Replace;
    ReplaceOne(c, '&', "&amp;");
    if c == '&' {
      ReplaceSkips("&amp;", '<', "&lt;");
      ReplaceSkips("&amp;", '>', "&gt;");
      ReplaceSkips("&amp;", '\"', "&quot;");
      ReplaceSkips("&amp;", '\'', "&#x27;");
    } else {
      ReplaceOne(c, '<', "&lt;");
      if c == '<' {
        ReplaceSkips("&lt;", '>', "&gt;");
        ReplaceSkips("&lt;", '\"', "&quot;");
        ReplaceSkips("&lt;", '\'', "&#x27;");
      } else {
        ReplaceOne(c, '>', "&gt;");
        if c == '>' {
          ReplaceSkips("&gt;", '\"', "&quot;");
          ReplaceSkips("&gt;", '\'', "&#x27;");
        } else {
          ReplaceOne(c, '\"', "&quot;");
          if c == '\"' { ReplaceSkips("&quot;", '\'', "&#x27;"); } else { ReplaceOne(c, '\'', "&#x27;"); }
        }
      }
    }
  }

  lemma EscapedConcat(s: string, t: string)
    ensures Replace(HtmlEscaped(s + t), NEWLINE, "<br>") ==
      Replace(HtmlEscaped(s), NEWLINE, "<br>") + Replace(HtmlEscaped(t), NEWLINE, "<br>")
  {
    HtmlConcat(s, t);
    ReplaceConcat(HtmlEscaped(s), HtmlEscaped(t), NEWLINE, "<br>");
  }

  lemma LastReplacements(c: char)
    ensures Replace(HtmlEscaped([c]), NEWLINE, "<br>") == if c == NEWLINE then "<br>" else HtmlCode(c)
  {
    HtmlOne(c);
    if c == '&' || c == '<' || c == '>' || c == '\"' || c == '\'' {
      ReplaceSkips(HtmlCode(c), NEWLINE, "<br>");
    } else {
      ReplaceOne(c, NEWLINE, "<br>");
    }
  }

  // The head of the text as the whole chain codes it.
  lemma HeadCode(c: char)
    ensures Replace(HtmlEscaped(if Structure(c) then [BACKSLASH, c] else [c]), NEWLINE, "<br>") == Code(c)
  {
    LastReplacements(c);
    if Structure(c) {
      assert [BACKSLASH, c] == [BACKSLASH] + [c];
      EscapedConcat([BACKSLASH], [c]);
      LastReplacements(BACKSLASH);
    }
  }

  // The chain of replacements is the code of each character.
  lemma {:induction false} EscapedIsEncoded(s: string)
    ensures Escaped(s) == Encoded(s)
    decreases s
  {
    if s != [] {
      var head := if Structure(s[0]) then [BACKSLASH, s[0]] else [s[0]];
      EscapedConcat(head, Backslashed(s[1..]));
      HeadCode(s[0]);
      EscapedIsEncoded(s[1..]);
    }
  }

  // Nothing is lost ----------------------------------------------------------------------------

  // The first character coded, and the length of its code.
  function Read(t: string): (char, nat)
    requires t != []
    ensures 1 <= Read(t).1 <= |t|
  {
    if t[0] == BACKSLASH && |t| >= 2 then (t[1], 2)
    else if "&amp;" <= t then ('&', 5)
    else if "&lt;" <= t then ('<', 4)
    else if "&gt;" <= t then ('>', 4)
    else if "&quot;" <= t then ('\"', 6)
    else if "&#x27;" <= t then ('\'', 6)
    else if "<br>" <= t then (NEWLINE, 4)
    else (t[0], 1)
  }

  function Decoded(t: string): string
    decreases |t|
  {
    if t == [] then [] else [Read(t).0] + Decoded(t[Read(t).1..])
  }

  // No code is a prefix of another, whatever follows.
  lemma ReadsFirst(c: char, t: string)
    ensures Read(Code(c) + t) == (c, |Code(c)|)
  {
    var text := Code(c) + t;
    assert text[0] == Code(c)[0];
    if |Code(c)| >= 2 { assert text[1] == Code(c)[1]; }
    assert Code(c) <= text;
    if c == '<' || c == '>' || c == '\"' || c == '\'' || c == '&' { EntitiesDiffer(c, text); }
  }

  lemma EntitiesDiffer(c: char, text: string)
    requires c == '<' || c == '>' || c == '\"' || c == '\'' || c == '&'
    requires Code(c) <= text
    ensures Read(text) == (c, |Code(c)|)
  {
    assert text[0] == '&' && text[1] == Code(c)[1] && text[2] == Code(c)[2];
  }

  // The printable text can be read back from the output.
  lemma {:induction false} DecodesBack(s: string)
    ensures Decoded(Escaped(s)) == s
    decreases s
  {
    EscapedIsEncoded(s);
    if s != [] {
      ReadsFirst(s[0], Encoded(s[1..]));
      EscapedIsEncoded(s[1..]);
      DecodesBack(s[1..]);
      assert Encoded(s)[|Code(s[0])|..] == Encoded(s[1..]);
      assert s == [s[0]] + s[1..];
    }
  }

  // What the output is free of -------------------------------------------------------------------

  // The backslashes right before position i.
  function Run(t: string, i: nat): nat
    requires i <= |t|
  {
    if i == 0 || t[i - 1] != BACKSLASH then 0 else 1 + Run(t, i - 1)
  }

  const QUOTE := "&#x27;"

  // The number sign that belongs to the code of a single quote.
  predicate InQuote(t: string, j: nat)
    requires j < |t|
  {
    j > 0 && QUOTE <= t[j - 1..]
  }

  // Read from left to right: a backslash takes the structural character behind it, no other
  // character has one, and a code of a single quote is passed over.
  predicate Guards(t: string, odd: bool)
    decreases |t|
  {
    if t == [] then !odd
    else if t[0] == BACKSLASH then Guards(t[1..], !odd)
    else if odd then Structure(t[0]) && Guards(t[1..], false)
    else if QUOTE <= t then Guards(t[6..], false)
    else !Structure(t[0]) && Guards(t[1..], false)
  }

  lemma {:induction false} PlainGuards(word: string, t: string)
    requires forall i | 0 <= i < |word| :: !Structure(word[i]) && word[i] != '&'
    requires Guards(t, false)
    ensures Guards(word + t, false)
    decreases |word|
  {
    if word == [] {
      assert word + t == t;
    } else {
      assert (word + t)[0] == word[0] && (word + t)[1..] == word[1..] + t;
      PlainGuards(word[1..], t);
    }
  }

  // Every code but that of the single quote.
  lemma EntityGuards(word: string, t: string)
    requires |word| > 1 && word[0] == '&' && word[1] != '#'
    requires forall i | 1 <= i < |word| :: !Structure(word[i]) && word[i] != '&'
    requires Guards(t, false)
    ensures Guards(word + t, false)
  {
    var text := word + t;
    assert text[0] == word[0] && text[1] == word[1] && text[1..] == word[1..] + t;
    assert QUOTE[1] == '#';
    PlainGuards(word[1..], t);
  }

  lemma CodeGuards(c: char, t: string)
    requires Guards(t, false)
    ensures Guards(Code(c) + t, false)
  {
    if Structure(c) {
      var rest := [c] + t;
      assert ([BACKSLASH, c] + t)[1..] == rest && rest[0] == c && rest[1..] == t;
    } else if c == '\'' {
      assert (QUOTE + t)[6..] == t && QUOTE <= QUOTE + t;
    } else if c == '&' || c == '<' || c == '>' || c == '\"' {
      EntityGuards(Code(c), t);
    } else {
      PlainGuards(Code(c), t);
    }
  }

  lemma {:induction false} EncodedGuards(s: string)
    ensures Guards(Encoded(s), false)
    decreases s
  {
    if s != [] {
      EncodedGuards(s[1..]);
      CodeGuards(s[0], Encoded(s[1..]));
    }
  }

  // Behind position j, which is no backslash itself, stands an odd run of backslashes exactly if
  // it is structural and not part of a code.
  predicate EscapedAt(t: string, j: nat)
    requires j < |t|
  {
    t[j] != BACKSLASH ==> (Run(t, j) % 2 == 1 <==> Structure(t[j]) && !InQuote(t, j))
  }

  lemma WithinQuote(t: string, i: nat, j: nat)
    requires i <= j < i + 6 <= |t| && QUOTE <= t[i..] && (i < j || Run(t, i) % 2 == 0)
    ensures EscapedAt(t, j)
  {
    assert forall k | 0 <= k < 6 :: t[i + k] == QUOTE[k] by { assert forall k | 0 <= k < 6 :: t[i..][k] == QUOTE[k]; }
    assert t[j] == QUOTE[j - i];
    if i < j { assert t[j - 1] == QUOTE[j - 1 - i]; }
  }

  lemma {:induction false} GuardsMeansEscaped(t: string, i: nat, j: nat)
    requires i <= j <= |t| && Guards(t[i..], Run(t, i) % 2 == 1) && (i < |t| ==> !InQuote(t, i))
    ensures if j < |t| then EscapedAt(t, j) else Run(t, j) % 2 == 0
    decreases j - i
  {
    if i < |t| {
      assert t[i..][0] == t[i] && t[i..][1..] == t[i + 1..];
      var quote := t[i] != BACKSLASH && Run(t, i) % 2 == 0 && QUOTE <= t[i..];
      if quote && j < i + 6 {
        WithinQuote(t, i, j);
      } else if quote {
        assert t[i..][6..] == t[i + 6..];
        assert t[i..][5] == QUOTE[5];
        GuardsMeansEscaped(t, i + 6, j);
      } else if i < j {
        GuardsMeansEscaped(t, i + 1, j);
      }
    }
  }

  // In the output a character that is no backslash has an odd run of backslashes before it, which
  // is its own after pairs that stand for backslashes of the text, if and only if it is structural
  // and not the number sign in the code of a single quote; and at the end all backslashes pair off.
  lemma StructureIsEscaped(s: string, j: nat)
    ensures j < |Escaped(s)| ==> EscapedAt(Escaped(s), j)
    ensures Run(Escaped(s), |Escaped(s)|) % 2 == 0
  {
    EscapedIsEncoded(s);
    EncodedGuards(s);
    var t := Escaped(s);
    assert t[0..] == t;
    GuardsMeansEscaped(t, 0, |t|);
    if j < |t| { GuardsMeansEscaped(t, 0, j); }
  }

  lemma {:induction false} NoNewline(s: string)
    ensures NEWLINE !in Escaped(s)
    decreases s
  {
    EscapedIsEncoded(s);
    if s != [] {
      NoNewline(s[1..]);
      EscapedIsEncoded(s[1..]);
      CodeHasNoNewline(s[0]);
    }
  }

  lemma CodeHasNoNewline(c: char)
    ensures NEWLINE !in Code(c)
  {
  }

  // Only printable characters are coded, and no line separator but the newline is left.
  lemma {:induction false} PrintableIsClean(s: string, control: char -> bool)
    ensures forall c | c in Printable(s, control) :: c in s && (c == NEWLINE || !control(c))
    decreases s
  {
    if s != [] { PrintableIsClean(s[1..], control); }
  }

  lemma {:induction false} ReplaceRemoves(s: string, c: char, instead: string)
    requires c !in instead
    ensures c !in Replace(s, c, instead)
    ensures forall d | d in Replace(s, c, instead) :: d in s || d in instead
    decreases s
  {
    if s != [] { ReplaceRemoves(s[1..], c, instead); }
  }

  lemma NormalizedIsClean(s: string)
    ensures forall c | c in Normalized(s) :: c != '\r' && c != '\U{2028}' && c != '\U{2029}' && c != '\t'
  {
    var a := JoinCrLf(s);
    var b := Replace(a, '\r', "\n");
    var c := Replace(b, '\U{2028}', "\n");
    var d := Replace(c, '\U{2029}', "\n");
    ReplaceRemoves(a, '\r', "\n");
    ReplaceRemoves(b, '\U{2028}', "\n");
    ReplaceRemoves(c, '\U{2029}', "\n");
    ReplaceRemoves(d, '\t', " ");
  }

  // The whole of _plain_text: one line that is not empty, with exactly the structural characters
  // escaped.
  lemma PlainIsOneCell(value: string, control: char -> bool)
    ensures var text := Plain(value, control);
      && text != "" && NEWLINE !in text && '\r' !in text
      && (forall j | 0 <= j < |text| :: EscapedAt(text, j)) && Run(text, |text|) % 2 == 0
  {
    hide Escaped, Normalized, Run, EscapedAt;
    var text, printable := Plain(value, control), Printable(Normalized(value), control);
    NoNewline(printable);
    NormalizedIsClean(value);
    PrintableIsClean(Normalized(value), control);
    EscapedAddsNoReturn(printable);
    StructureIsEscaped(printable, 0);
    NotDeclaredIsPlain(0);
    forall j | 0 <= j < |text| ensures EscapedAt(text, j) {
      if text == NOT_DECLARED { NotDeclaredIsPlain(j); } else { StructureIsEscaped(printable, j); }
    }
  }

  lemma NotDeclaredIsPlain(j: nat)
    ensures j < |NOT_DECLARED| ==> EscapedAt(NOT_DECLARED, j)
    ensures Run(NOT_DECLARED, |NOT_DECLARED|) % 2 == 0
  {
    hide Run;
    NoRun(NOT_DECLARED, |NOT_DECLARED|);
    if j < |NOT_DECLARED| {
      NoRun(NOT_DECLARED, j);
      NotDeclaredLetters(j);
    }
  }

  lemma NoRun(t: string, i: nat)
    requires i <= |t| && BACKSLASH !in t
    ensures Run(t, i) == 0
  {
  }

  lemma NotDeclaredLetters(j: nat)
    requires j < |NOT_DECLARED|
    ensures !Structure(NOT_DECLARED[j])
  {
  }

  lemma {:induction false} EscapedAddsNoReturn(s: string)
    requires '\r' !in s
    ensures '\r' !in Escaped(s)
    decreases s
  {
    EscapedIsEncoded(s);
    if s != [] {
      EscapedAddsNoReturn(s[1..]);
      EscapedIsEncoded(s[1..]);
    }
  }

  // The whole chain -----------------------------------------------------------------------------

  // What a character becomes that is not part of a carriage return and line feed.
  function LineOrSpace(c: char): char {
    if c == '\r' || c == '\U{2028}' || c == '\U{2029}' then NEWLINE else if c == '\t' then ' ' else c
  }

  // Line ends and tabs in one pass.
  function Unified(s: string): string {
    if |s| >= 2 && s[0] == '\r' && s[1] == NEWLINE then [NEWLINE] + Unified(s[2..])
    else if s == [] then []
    else [LineOrSpace(s[0])] + Unified(s[1..])
  }

  lemma {:induction false} NormalizedIsUnified(s: string)
    ensures Normalized(s) == Unified(s)
    decreases s
  {
    if |s| >= 2 && s[0] == '\r' && s[1] == NEWLINE {
      NormalizedIsUnified(s[2..]);
      NormalizedCons(NEWLINE, JoinCrLf(s[2..]));
    } else if s != [] {
      NormalizedIsUnified(s[1..]);
      NormalizedCons(s[0], JoinCrLf(s[1..]));
    }
  }

  function Replacements(s: string): string {
    Replace(Replace(Replace(Replace(s, '\r', "\n"), '\U{2028}', "\n"), '\U{2029}', "\n"), '\t', " ")
  }

  lemma NormalizedCons(c: char, rest: string)
    ensures Replacements([c] + rest) == [LineOrSpace(c)] + Replacements(rest)
  {
    assert ([c] + rest)[1..] == rest;
    var a := Replace(rest, '\r', "\n");
    var c1 := if c == '\r' then NEWLINE else c;
    assert Replace([c] + rest, '\r', "\n") == [c1] + a;
    assert ([c1] + a)[1..] == a;
    var b := Replace(a, '\U{2028}', "\n");
    var c2 := if c1 == '\U{2028}' then NEWLINE else c1;
    assert Replace([c1] + a, '\U{2028}', "\n") == [c2] + b;
    assert ([c2] + b)[1..] == b;
    var d := Replace(b, '\U{2029}', "\n");
    var c3 := if c2 == '\U{2029}' then NEWLINE else c2;
    assert Replace([c2] + b, '\U{2029}', "\n") == [c3] + d;
    assert ([c3] + d)[1..] == d;
  }

  // Printing keeps the newlines and what is no control character, each where it stood.
  lemma {:induction false} PrintableIsFilter(s: string, t: string, control: char -> bool)
    ensures Printable(s + t, control) == Printable(s, control) + Printable(t, control)
    decreases s
  {
    if s == [] {
      assert s + t == t;
    } else {
      PrintableIsFilter(s[1..], t, control);
      var head := if s[0] == NEWLINE || !control(s[0]) then [s[0]] else [];
      assert (s + t)[0] == s[0] && (s + t)[1..] == s[1..] + t;
      assert Printable(s + t, control) == head + Printable(s[1..] + t, control);
      assert Printable(s, control) == head + Printable(s[1..], control);
    }
  }

  lemma PrintableOne(c: char, control: char -> bool)
    ensures Printable([c], control) == if c == NEWLINE || !control(c) then [c] else ""
  {
    assert [c][1..] == [];
  }

  // The output gives the printable text of the value back; only when there is none it says so.
  lemma PlainDecodesBack(value: string, control: char -> bool)
    ensures var printable := Printable(Unified(value), control);
      if printable == "" then Plain(value, control) == "Not declared"
      else Plain(value, control) != "" && Decoded(Plain(value, control)) == printable && Plain(value, control) == Encoded(printable)
  {
    hide Normalized, Unified, Escaped, Decoded;
    NormalizedIsUnified(value);
    var printable := Printable(Unified(value), control);
    DecodesBack(printable);
    EscapedIsEncoded(printable);
    EmptyIsEmpty(control);
  }

  // The characters that get a backslash: no other has a meaning in Markdown that HTML escaping leaves.
  lemma GuardedCharacters(c: char)
    ensures Encoded([c]) == ['\\', c] <==> c in "\\`*_[]()#!|"
  {
    assert Encoded([c]) == Code(c) + Encoded([]) == Code(c);
  }

  lemma EmptyIsEmpty(control: char -> bool)
    ensures Unified("") == "" && Printable("", control) == "" && Escaped("") == "" && Decoded("") == ""
  {
  }
}
