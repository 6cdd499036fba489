/** The sanitiser of generic reports and the check that a stored report passes before it is
    delivered (api/run_result_service.py). */
module ResultSanitizer {
  import opened ReviewTypes

  type Text = seq<char>

  // str.isspace and \s
  predicate IsSpace(c: char) {
    || ('\t' <= c <= '\r') || ('\U{001c}' <= c <= '\U{0020}') || c == '\U{0085}' || c == '\U{00a0}' || c == '\U{1680}'
    || ('\U{2000}' <= c <= '\U{200a}') || c == '\U{2028}' || c == '\U{2029}' || c == '\U{202f}' || c == '\U{205f}' || c == '\U{3000}'
  }

  // The ends of lines for str.splitlines.
  predicate IsBreak(c: char) {
    || ('\n' <= c <= '\r') || ('\U{001c}' <= c <= '\U{001e}') || c == '\U{0085}' || c == '\U{2028}' || c == '\U{2029}'
  }

  // Host paths ---------------------------------------------------------------------------------

  const ROOTS: seq<Text> := ["/Users/", "/private/", "/var/", "/tmp/", "/Volumes/", "/home/", "/opt/"]

  // [^\s)"']
  predicate InPath(c: char) {
    !IsSpace(c) && c != ')' && c != '\"' && c != '\''
  }

  // A root at position i, and at least one path character after it.
  predicate Occurs(s: Text, i: nat, root: Text) {
    && i + |root| < |s|
    && (forall k | 0 <= k < |root| :: s[i + k] == root[k])
    && InPath(s[i + |root|])
  }

  predicate PathAt(s: Text, i: nat) {
    exists q | 0 <= q < |ROOTS| :: Occurs(s, i, ROOTS[q])
  }

  ghost predicate HasPath(s: Text) {
    exists i: nat :: PathAt(s, i)
  }

  function RootLength(s: Text, q: nat): (n: nat)
    requires q <= |ROOTS|
    ensures n > 0 <==> exists p | q <= p < |ROOTS| :: Occurs(s, 0, ROOTS[p])
    ensures n > 0 ==> n < |s|
    decreases |ROOTS| - q
  {
    if q == |ROOTS| then 0 else if Occurs(s, 0, ROOTS[q]) then |ROOTS[q]| else RootLength(s, q + 1)
  }

  // The longest run of path characters.
  function Span(s: Text): (n: nat)
    ensures n <= |s|
    ensures forall i | 0 <= i < n :: InPath(s[i])
    ensures n < |s| ==> !InPath(s[n])
  {
    if s == [] || !InPath(s[0]) then 0 else 1 + Span(s[1..])
  }

  // The length of the match at the start of the text, zero for none.
  function Match(s: Text): (n: nat)
    ensures n <= |s|
    ensures n > 0 <==> PathAt(s, 0)
  {
    var r := RootLength(s, 0);
    if r == 0 then 0 else r + Span(s[r..])
  }

  const MARK: Text := "[redacted-path]"

  // re.sub: leftmost matches, each as long as it can be.
  function Redact(s: Text): Text
    decreases |s|
  {
    if s == [] then []
    else if Match(s) > 0 then MARK + Redact(s[Match(s)..])
    else [s[0]] + Redact(s[1..])
  }

  // Words ----------------------------------------------------------------------------------------

  // What IGNORECASE makes of a character: besides A-Z, the Kelvin sign and the two other letters i.
  function Fold(c: char): char {
    if 'A' <= c <= 'Z' then ((c as int) + 32) as char
    else if c == '\U{212a}' then 'k'
    else if c == '\U{0130}' || c == '\U{0131}' then 'i'
    else c
  }

  predicate WordAt(s: Text, i: nat, word: Text) {
    i + |word| <= |s| && forall k | 0 <= k < |word| :: Fold(s[i + k]) == word[k]
  }

  const CHECKPOINT: Text := "checkpoint"
  const TRACEBACK: Text := "traceback"

  ghost predicate HasWord(s: Text) {
    exists i: nat :: WordAt(s, i, CHECKPOINT) || WordAt(s, i, TRACEBACK)
  }

  // re.search for either word.
  predicate Mentions(s: Text)
    ensures Mentions(s) <==> HasWord(s)
  {
    exists i | 0 <= i < |s| :: WordAt(s, i, CHECKPOINT) || WordAt(s, i, TRACEBACK)
  }

  ghost predicate Unsafe(s: Text) {
    HasPath(s) || HasWord(s)
  }

  // Pieces of a safe text ------------------------------------------------------------------------

  lemma OccursInPart(s: Text, a: nat, b: nat, i: nat, root: Text)
    requires a <= b <= |s| && Occurs(s[a..b], i, root)
    ensures Occurs(s, a + i, root)
  {
  }

  lemma PathInPart(s: Text, a: nat, b: nat, i: nat)
    requires a <= b <= |s| && PathAt(s[a..b], i)
    ensures PathAt(s, a + i)
  {
    var q :| 0 <= q < |ROOTS| && Occurs(s[a..b], i, ROOTS[q]);
    OccursInPart(s, a, b, i, ROOTS[q]);
  }

  lemma WordInPart(s: Text, a: nat, b: nat, i: nat, word: Text)
    requires a <= b <= |s| && WordAt(s[a..b], i, word)
    ensures WordAt(s, a + i, word)
  {
  }

  lemma PartIsSafe(s: Text, a: nat, b: nat)
    requires a <= b <= |s| && !Unsafe(s)
    ensures !Unsafe(s[a..b])
  {
    if HasPath(s[a..b]) {
      var i: nat :| PathAt(s[a..b], i);
      PathInPart(s, a, b, i);
      assert false;
    }
    if HasWord(s[a..b]) {
      var i: nat :| WordAt(s[a..b], i, CHECKPOINT) || WordAt(s[a..b], i, TRACEBACK);
      if WordAt(s[a..b], i, CHECKPOINT) { WordInPart(s, a, b, i, CHECKPOINT); } else { WordInPart(s, a, b, i, TRACEBACK); }
      assert false;
    }
  }

  lemma RootsHaveNoNewline()
    ensures forall q | 0 <= q < |ROOTS| :: '\n' !in ROOTS[q] && '[' !in ROOTS[q] && |ROOTS[q]| > 0 && ROOTS[q][0] == '/'
    ensures '\n' !in CHECKPOINT && '\n' !in TRACEBACK && !InPath('\n') && Fold('\n') == '\n'
  {
  }

  lemma RootCharacter(s: Text, i: nat, root: Text, at: nat)
    requires Occurs(s, i, root) && i <= at < i + |root|
    ensures s[at] in root
  {
    assert s[i + (at - i)] == root[at - i];
  }

  lemma WordCharacter(s: Text, i: nat, word: Text, at: nat)
    requires WordAt(s, i, word) && i <= at < i + |word|
    ensures Fold(s[at]) in word
  {
    assert Fold(s[i + (at - i)]) == word[at - i];
  }

  // A newline separates: whatever occurs in a joined text occurs in one of the two lines.
  lemma OccursInLine(a: Text, b: Text, i: nat, root: Text)
    requires Occurs(a + ['\n'] + b, i, root) && '\n' !in root && |root| > 0
    ensures Occurs(a, i, root) || (i > |a| && Occurs(b, i - |a| - 1, root))
  {
    var s := a + ['\n'] + b;
    assert s[|a|] == '\n';
    if i > |a| {
      forall k | 0 <= k < |root| ensures b[i - |a| - 1 + k] == root[k] { assert s[i + k] == root[k]; }
    } else if |a| < i + |root| {
      RootCharacter(s, i, root, |a|);
    } else {
      forall k | 0 <= k < |root| ensures a[i + k] == root[k] { assert s[i + k] == root[k]; }
    }
  }

  lemma WordInLine(a: Text, b: Text, i: nat, word: Text)
    requires WordAt(a + ['\n'] + b, i, word) && '\n' !in word && |word| > 0
    ensures WordAt(a, i, word) || (i > |a| && WordAt(b, i - |a| - 1, word))
  {
    var s := a + ['\n'] + b;
    assert s[|a|] == '\n';
    if i > |a| {
      forall k | 0 <= k < |word| ensures Fold(b[i - |a| - 1 + k]) == word[k] { assert Fold(s[i + k]) == word[k]; }
    } else if |a| < i + |word| {
      WordCharacter(s, i, word, |a|);
    } else {
      forall k | 0 <= k < |word| ensures Fold(a[i + k]) == word[k] { assert Fold(s[i + k]) == word[k]; }
    }
  }

  lemma PathInLine(a: Text, b: Text, i: nat)
    requires PathAt(a + ['\n'] + b, i)
    ensures PathAt(a, i) || (i > |a| && PathAt(b, i - |a| - 1))
  {
    RootsHaveNoNewline();
    var q :| 0 <= q < |ROOTS| && Occurs(a + ['\n'] + b, i, ROOTS[q]);
    OccursInLine(a, b, i, ROOTS[q]);
  }

  lemma JoinIsSafe(a: Text, b: Text)
    requires !Unsafe(a) && !Unsafe(b)
    ensures !Unsafe(a + ['\n'] + b)
  {
    var s := a + ['\n'] + b;
    forall i: nat ensures !PathAt(s, i) {
      if PathAt(s, i) { PathInLine(a, b, i); }
    }
    forall i: nat ensures !WordAt(s, i, CHECKPOINT) && !WordAt(s, i, TRACEBACK) {
      if WordAt(s, i, CHECKPOINT) { WordInLine(a, b, i, CHECKPOINT); }
      if WordAt(s, i, TRACEBACK) { WordInLine(a, b, i, TRACEBACK); }
    }
  }

  // Redaction is closed --------------------------------------------------------------------------

  // Where the output shows text without an opening bracket, it shows the input.
  lemma RedactHead(t: Text)
    requires Redact(t) != [] && Redact(t)[0] != '['
    ensures t != [] && Redact(t) == [t[0]] + Redact(t[1..])
  {
    hide Match;
  }

  lemma {:induction false} RedactShows(t: Text, p: Text)
    requires '[' !in p && p <= Redact(t)
    ensures p <= t && Redact(t)[|p|..] == Redact(t[|p|..])
    decreases |p|
  {
    hide Redact;
    if p == [] {
      assert t[0..] == t && Redact(t)[0..] == Redact(t);
    } else {
      assert Redact(t)[0] == p[0] && p[0] in p;
      RedactHead(t);
      var rest := p[1..];
      assert rest <= Redact(t[1..]) by { assert Redact(t)[1..] == Redact(t[1..]) && p[1..] <= Redact(t)[1..]; }
      RedactShows(t[1..], rest);
      assert t[1..][|rest|..] == t[|p|..];
      assert Redact(t)[|p|..] == Redact(t[1..])[|rest|..];
      assert p == [t[0]] + rest && t == [t[0]] + t[1..];
    }
  }

  // The character after a shown prefix is a path character only if the input's own is.
  lemma NextIsShown(u: Text)
    requires Redact(u) != [] && InPath(Redact(u)[0])
    ensures u != [] && InPath(u[0])
  {
    if Match(u) > 0 {
      RootsHaveNoNewline();
      var q :| 0 <= q < |ROOTS| && Occurs(u, 0, ROOTS[q]);
      assert u[0 + 0] == ROOTS[q][0];
    }
  }

  lemma PathAtHead(s: Text)
    requires s != [] && PathAt([s[0]] + Redact(s[1..]), 0)
    ensures PathAt(s, 0)
  {
    hide Redact, InPath;
    var out := [s[0]] + Redact(s[1..]);
    RootsHaveNoNewline();
    var q :| 0 <= q < |ROOTS| && Occurs(out, 0, ROOTS[q]);
    var root := ROOTS[q];
    forall k | 0 <= k < |root| ensures out[k] == root[k] { assert out[0 + k] == root[k]; }
    assert root == [s[0]] + root[1..];
    assert root[1..] <= Redact(s[1..]);
    RedactShows(s[1..], root[1..]);
    var u := s[1..][|root| - 1..];
    assert out[|root|] == Redact(u)[0];
    NextIsShown(u);
    assert s[|root|] == u[0];
    forall k | 0 <= k < |root| ensures s[0 + k] == root[k] { if k > 0 { assert s[1..][k - 1] == root[1..][k - 1]; } }
    assert Occurs(s, 0, root);
  }

  lemma PathInTail(p: Text, t: Text, i: nat)
    requires PathAt(p + t, i) && i >= |p|
    ensures PathAt(t, i - |p|)
  {
    assert (p + t)[|p|..|p + t|] == t;
    var q :| 0 <= q < |ROOTS| && Occurs(p + t, i, ROOTS[q]);
    forall k | 0 <= k < |ROOTS[q]| ensures t[i - |p| + k] == ROOTS[q][k] { assert (p + t)[i + k] == ROOTS[q][k]; }
    assert Occurs(t, i - |p|, ROOTS[q]);
  }

  lemma MarkHasNoPath(t: Text, i: nat)
    requires i < |MARK|
    ensures !PathAt(MARK + t, i)
  {
    RootsHaveNoNewline();
    assert forall k | 0 <= k < |MARK| :: MARK[k] != '/';
    forall q | 0 <= q < |ROOTS| ensures !Occurs(MARK + t, i, ROOTS[q]) {
      assert (MARK + t)[i + 0] != ROOTS[q][0];
    }
  }

  lemma {:induction false} RedactedHasNoPath(s: Text, i: nat)
    ensures !PathAt(Redact(s), i)
    decreases |s|, i
  {
    if s == [] {
    } else if Match(s) > 0 {
      var rest := s[Match(s)..];
      if i < |MARK| {
        MarkHasNoPath(Redact(rest), i);
      } else {
        RedactedHasNoPath(rest, i - |MARK|);
        if PathAt(MARK + Redact(rest), i) { PathInTail(MARK, Redact(rest), i); }
      }
    } else if i == 0 {
      if PathAt([s[0]] + Redact(s[1..]), 0) { PathAtHead(s); }
    } else {
      RedactedHasNoPath(s[1..], i - 1);
      if PathAt([s[0]] + Redact(s[1..]), i) { PathInTail([s[0]], Redact(s[1..]), i); }
    }
  }

  predicate Word(word: Text) {
    word == CHECKPOINT || word == TRACEBACK
  }

  lemma {:induction false} RedactFolds(t: Text, p: Text)
    requires '[' !in p && |p| <= |Redact(t)| && forall k | 0 <= k < |p| :: Fold(Redact(t)[k]) == p[k]
    ensures |p| <= |t| && forall k | 0 <= k < |p| :: Fold(t[k]) == p[k]
    decreases |p|
  {
    hide Redact;
    assert Fold('[') == '[';
    hide Fold;
    if p != [] {
      assert Fold(Redact(t)[0]) == p[0] && p[0] in p;
      RedactHead(t);
      forall k | 0 <= k < |p| - 1 ensures Fold(Redact(t[1..])[k]) == p[1..][k] { assert Fold(Redact(t)[k + 1]) == p[k + 1]; }
      RedactFolds(t[1..], p[1..]);
      forall k | 0 <= k < |p| ensures Fold(t[k]) == p[k] { if k > 0 { assert Fold(t[1..][k - 1]) == p[1..][k - 1]; } }
    }
  }

  // The first two letters of neither word stand together in the mark.
  lemma MarkLetters(i: nat)
    requires i < |MARK|
    ensures Fold(MARK[i]) == 'c' ==> i + 1 < |MARK| && Fold(MARK[i + 1]) != 'h'
    ensures Fold(MARK[i]) == 't' ==> i + 1 < |MARK| && Fold(MARK[i + 1]) != 'r'
  {
  }

  lemma WordHead(s: Text, i: nat, word: Text)
    requires Word(word) && WordAt(s, i, word)
    ensures i + 1 < |s| && ((Fold(s[i]) == 'c' && Fold(s[i + 1]) == 'h') || (Fold(s[i]) == 't' && Fold(s[i + 1]) == 'r'))
  {
    assert Fold(s[i + 0]) == word[0] && Fold(s[i + 1]) == word[1];
  }

  lemma MarkHasNoWord(t: Text, i: nat, word: Text)
    requires i < |MARK| && Word(word)
    ensures !WordAt(MARK + t, i, word)
  {
    hide Fold, Word;
    MarkLetters(i);
    if WordAt(MARK + t, i, word) { WordHead(MARK + t, i, word); }
  }

  lemma WordInTail(p: Text, t: Text, i: nat, word: Text)
    requires WordAt(p + t, i, word) && i >= |p|
    ensures WordAt(t, i - |p|, word)
  {
    forall k | 0 <= k < |word| ensures Fold(t[i - |p| + k]) == word[k] { assert Fold((p + t)[i + k]) == word[k]; }
  }

  lemma WordAtHead(s: Text, word: Text)
    requires Word(word) && WordAt(Redact(s), 0, word)
    ensures WordAt(s, 0, word)
  {
    hide Fold, Match, Redact;
    forall k | 0 <= k < |word| ensures Fold(Redact(s)[k]) == word[k] { assert Fold(Redact(s)[0 + k]) == word[k]; }
    RedactFolds(s, word);
  }

  // A word in the redacted line was in the line.
  lemma {:induction false} RedactedWord(s: Text, i: nat, word: Text)
    requires Word(word) && WordAt(Redact(s), i, word)
    ensures exists j: nat :: WordAt(s, j, word)
    decreases |s|, i
  {
    hide Fold, Match, WordAt;
    if s == [] {
      WordHead([], i, word);
    } else if Match(s) > 0 {
      var rest := s[Match(s)..];
      MarkOrTail(Redact(rest), i, word);
      RedactedWord(rest, i - |MARK|, word);
      var j: nat :| WordAt(rest, j, word);
      WordInDrop(s, Match(s), j, word);
    } else if i > 0 {
      WordInTail([s[0]], Redact(s[1..]), i, word);
      RedactedWord(s[1..], i - 1, word);
      var j: nat :| WordAt(s[1..], j, word);
      WordInDrop(s, 1, j, word);
    } else {
      WordAtHead(s, word);
    }
  }

  lemma WordInDrop(s: Text, a: nat, j: nat, word: Text)
    requires a <= |s| && WordAt(s[a..], j, word)
    ensures WordAt(s, a + j, word)
  {
    assert s[a..|s|] == s[a..];
    WordInPart(s, a, |s|, j, word);
  }

  lemma MarkOrTail(rest: Text, i: nat, word: Text)
    requires Word(word) && WordAt(MARK + rest, i, word)
    ensures i >= |MARK| && WordAt(rest, i - |MARK|, word)
  {
    hide WordAt, Word;
    if i < |MARK| { MarkHasNoWord(rest, i, word); } else { WordInTail(MARK, rest, i, word); }
  }

  // A line that is kept is safe once its paths are redacted.
  lemma RedactedIsSafe(s: Text)
    requires !HasWord(s)
    ensures !Unsafe(Redact(s))
  {
    forall i: nat ensures !PathAt(Redact(s), i) { RedactedHasNoPath(s, i); }
    forall i: nat ensures !WordAt(Redact(s), i, CHECKPOINT) && !WordAt(Redact(s), i, TRACEBACK) {
      if WordAt(Redact(s), i, CHECKPOINT) { RedactedWord(s, i, CHECKPOINT); }
      if WordAt(Redact(s), i, TRACEBACK) { RedactedWord(s, i, TRACEBACK); }
    }
  }

  // Without a path redaction changes nothing.
  lemma {:induction false} RedactKeepsSafe(s: Text)
    requires !HasPath(s)
    ensures Redact(s) == s
    decreases |s|
  {
    if s != [] {
      assert s[1..|s|] == s[1..];
      forall i: nat ensures !PathAt(s[1..], i) { if PathAt(s[1..|s|], i) { PathInPart(s, 1, |s|, i); } }
      RedactKeepsSafe(s[1..]);
    }
  }

  // The whole text -------------------------------------------------------------------------------

  // The first line without its end, and where the next one begins.
  function LineLength(s: Text): (n: nat)
    ensures n <= |s|
    ensures forall i | 0 <= i < n :: !IsBreak(s[i])
    ensures n < |s| ==> IsBreak(s[n])
  {
    if s == [] || IsBreak(s[0]) then 0 else 1 + LineLength(s[1..])
  }

  function AfterBreak(s: Text, n: nat): (m: nat)
    requires n <= |s|
    ensures n <= m <= |s| && (n < |s| ==> n < m)
  {
    if n == |s| then n
    else if s[n] == '\r' && n + 1 < |s| && s[n + 1] == '\n' then n + 2
    else n + 1
  }

  predicate OneLine(s: Text) {
    forall c | c in s :: !IsBreak(c)
  }

  // str.splitlines: no empty line after a final break.
  function SplitLines(s: Text): (lines: seq<Text>)
    ensures forall line | line in lines :: OneLine(line)
    decreases |s|
  {
    if s == [] then [] else
    var n := LineLength(s);
    [s[..n]] + SplitLines(s[AfterBreak(s, n)..])
  }

  function Join(lines: seq<Text>): Text {
    if lines == [] then [] else if |lines| == 1 then lines[0] else lines[0] + ['\n'] + Join(lines[1..])
  }

  function LeftStripped(s: Text): Text {
    if s != [] && IsSpace(s[0]) then LeftStripped(s[1..]) else s
  }

  function RightStripped(s: Text): Text {
    if s != [] && IsSpace(s[|s| - 1]) then RightStripped(s[..|s| - 1]) else s
  }

  function Stripped(s: Text): Text {
    RightStripped(LeftStripped(s))
  }

  // The lines without either word, with their paths redacted.
  function Kept(lines: seq<Text>): seq<Text> {
    if lines == [] then [] else
    (if Mentions(lines[0]) then [] else [Redact(lines[0])]) + Kept(lines[1..])
  }

  // _sanitize_result_content without a limit.
  function Sanitized(value: Text): Text {
    Stripped(Join(Kept(SplitLines(value))))
  }

  const ELLIPSIS: char := '\U{2026}'

  // The loop over the lines.
  method KeepLines(lines: seq<Text>) returns (kept: seq<Text>)
    ensures kept == Kept(lines)
  {
    hide Redact, Mentions;
    kept := [];
    for i := 0 to |lines|
      invariant kept + Kept(lines[i..]) == Kept(lines)
    {
      assert lines[i..][1..] == lines[i + 1..];
      if !Mentions(lines[i]) { kept := kept + [Redact(lines[i])]; }
    }
    assert lines[|lines|..] == [];
  }

  // _sanitize_result_content
  method SanitizeResultContent(value: Text, limit: Option<nat>) returns (text: Text)
    ensures limit.None? || |Sanitized(value)| <= limit.value ==> text == Sanitized(value)
    ensures limit.Some? && limit.value < |Sanitized(value)| ==> text == Sanitized(value)[..limit.value] + [ELLIPSIS]
  {
    hide Kept, SplitLines, Join, Stripped;
    var kept := KeepLines(SplitLines(value));
    text := Stripped(Join(kept));
    if limit.Some? && |text| > limit.value { text := text[..limit.value] + [ELLIPSIS]; }
  }

  lemma {:induction false} LeftPart(s: Text)
    ensures |LeftStripped(s)| <= |s| && LeftStripped(s) == s[|s| - |LeftStripped(s)|..]
    decreases |s|
  {
    if s != [] && IsSpace(s[0]) { LeftPart(s[1..]); }
  }

  lemma {:induction false} RightPart(s: Text)
    ensures |RightStripped(s)| <= |s| && RightStripped(s) == s[..|RightStripped(s)|]
    decreases |s|
  {
    if s != [] && IsSpace(s[|s| - 1]) { RightPart(s[..|s| - 1]); }
  }

  lemma StripIsSafe(s: Text)
    requires !Unsafe(s)
    ensures !Unsafe(Stripped(s))
  {
    LeftPart(s);
    RightPart(LeftStripped(s));
    PartIsSafe(s, |s| - |LeftStripped(s)|, |s|);
    assert s[|s| - |LeftStripped(s)|..|s|] == LeftStripped(s);
    PartIsSafe(LeftStripped(s), 0, |Stripped(s)|);
    assert LeftStripped(s)[0..|Stripped(s)|] == Stripped(s);
  }

  lemma EmptyIsSafe()
    ensures !Unsafe([])
  {
  }

  lemma {:induction false} KeptIsSafe(lines: seq<Text>)
    ensures forall line | line in Kept(lines) :: !Unsafe(line)
  {
    if lines != [] {
      KeptIsSafe(lines[1..]);
      if !Mentions(lines[0]) { RedactedIsSafe(lines[0]); }
    }
  }

  lemma {:induction false} JoinedIsSafe(lines: seq<Text>)
    requires forall line | line in lines :: !Unsafe(line)
    ensures !Unsafe(Join(lines))
  {
    hide Unsafe;
    if lines == [] {
      EmptyIsSafe();
    } else if |lines| > 1 {
      JoinedIsSafe(lines[1..]);
      JoinIsSafe(lines[0], Join(lines[1..]));
    }
  }

  // What the sanitiser keeps holds no host path and neither word.
  lemma SanitizedIsSafe(value: Text)
    ensures !Unsafe(Sanitized(value))
  {
    hide Unsafe, Stripped;
    KeptIsSafe(SplitLines(value));
    JoinedIsSafe(Kept(SplitLines(value)));
    StripIsSafe(Join(Kept(SplitLines(value))));
  }

  // Sanitising again ------------------------------------------------------------------------------

  // No line end but the newline, and no space at either end.
  ghost predicate Tidy(s: Text) {
    && (forall c | c in s && IsBreak(c) :: c == '\n')
    && (s != [] ==> !IsSpace(s[0]) && !IsSpace(s[|s| - 1]))
  }

  lemma {:induction false} RedactAddsNoBreak(s: Text)
    requires OneLine(s)
    ensures OneLine(Redact(s))
    decreases |s|
  {
    hide Match;
    assert forall k | 0 <= k < |MARK| :: !IsBreak(MARK[k]);
    if s != [] {
      if Match(s) > 0 { RedactAddsNoBreak(s[Match(s)..]); } else { RedactAddsNoBreak(s[1..]); }
    }
  }

  lemma {:induction false} KeptHaveNoBreak(lines: seq<Text>)
    requires forall line | line in lines :: OneLine(line)
    ensures forall line | line in Kept(lines) :: OneLine(line)
  {
    if lines != [] {
      KeptHaveNoBreak(lines[1..]);
      RedactAddsNoBreak(lines[0]);
    }
  }

  lemma {:induction false} JoinedBreaks(lines: seq<Text>)
    requires forall line | line in lines :: OneLine(line)
    ensures forall c | c in Join(lines) && IsBreak(c) :: c == '\n'
  {
    if lines != [] {
      assert OneLine(lines[0]);
      JoinedBreaks(lines[1..]);
    }
  }

  lemma {:induction false} LeftEnd(s: Text)
    ensures LeftStripped(s) != [] ==> !IsSpace(LeftStripped(s)[0])
    decreases |s|
  {
    if s != [] && IsSpace(s[0]) { LeftEnd(s[1..]); }
  }

  lemma {:induction false} RightEnd(s: Text)
    ensures RightStripped(s) != [] ==> !IsSpace(RightStripped(s)[|RightStripped(s)| - 1])
    decreases |s|
  {
    if s != [] && IsSpace(s[|s| - 1]) { RightEnd(s[..|s| - 1]); }
  }

  lemma StripIsTidy(s: Text)
    requires forall c | c in s && IsBreak(c) :: c == '\n'
    ensures Tidy(Stripped(s))
  {
    LeftPart(s);
    LeftEnd(s);
    var left := LeftStripped(s);
    RightPart(left);
    RightEnd(left);
    if Stripped(s) != [] { assert Stripped(s)[0] == left[0]; }
    hide IsSpace, IsBreak, LeftStripped, RightStripped;
  }

  lemma SanitizedIsTidy(value: Text)
    ensures Tidy(Sanitized(value))
  {
    hide Tidy, Kept, Join, Stripped;
    var kept := Kept(SplitLines(value));
    KeptHaveNoBreak(SplitLines(value));
    JoinedBreaks(kept);
    StripIsTidy(Join(kept));
  }

  lemma JoinCons(line: Text, lines: seq<Text>)
    requires lines != []
    ensures Join([line] + lines) == line + ['\n'] + Join(lines)
  {
    assert ([line] + lines)[1..] == lines;
  }

  lemma NoLines()
    ensures SplitLines([]) == []
  {
  }

  lemma SplitOnce(s: Text)
    requires s != []
    ensures SplitLines(s) == [s[..LineLength(s)]] + SplitLines(s[AfterBreak(s, LineLength(s))..])
  {
    hide IsBreak, LineLength, AfterBreak;
  }

  lemma OnlyLine(s: Text)
    requires s != [] && LineLength(s) == |s|
    ensures SplitLines(s) == [s]
  {
    SplitOnce(s);
    NoLines();
    hide SplitLines, LineLength, IsBreak, OneLine;
    assert s[..|s|] == s && s[|s|..] == [];
  }

  lemma FirstLine(s: Text)
    requires LineLength(s) < |s| && s[LineLength(s)] == '\n'
    ensures SplitLines(s) == [s[..LineLength(s)]] + SplitLines(s[LineLength(s) + 1..])
  {
    hide SplitLines, LineLength, IsBreak, OneLine;
    assert AfterBreak(s, LineLength(s)) == LineLength(s) + 1;
    SplitOnce(s);
  }

  lemma JoinFew(line: Text)
    ensures Join([]) == [] && Join([line]) == line
  {
  }

  // Splitting a tidy text and joining it again gives the text.
  lemma {:induction false} SplitAndJoin(s: Text)
    requires (forall c | c in s && IsBreak(c) :: c == '\n') && (s != [] ==> s[|s| - 1] != '\n')
    ensures Join(SplitLines(s)) == s && (s != [] ==> SplitLines(s) != [])
    decreases |s|
  {
    hide IsBreak, SplitLines, Join, LineLength, OneLine;
    var n := LineLength(s);
    NoLines();
    JoinFew(s);
    if s != [] && n == |s| {
      OnlyLine(s);
    } else if s != [] {
      assert s[n] in s;
      FirstLine(s);
      var rest := s[n + 1..];
      assert s == s[..n] + ['\n'] + rest;
      assert s[|s| - 1] != '\n' && n + 1 < |s|;
      assert rest[|rest| - 1] == s[|s| - 1];
      SplitAndJoin(rest);
      JoinCons(s[..n], SplitLines(rest));
    }
  }

  // The lines of a safe text are safe, and so are kept as they are.
  lemma {:induction false} SafeLinesKept(s: Text)
    requires !Unsafe(s)
    ensures Kept(SplitLines(s)) == SplitLines(s)
    decreases |s|
  {
    if s != [] {
      var n := LineLength(s);
      var m := AfterBreak(s, n);
      PartIsSafe(s, 0, n);
      PartIsSafe(s, m, |s|);
      assert s[0..n] == s[..n] && s[m..|s|] == s[m..];
      SafeLinesKept(s[m..]);
      RedactKeepsSafe(s[..n]);
      hide Unsafe, Mentions, Redact;
      var lines := [s[..n]] + SplitLines(s[m..]);
      assert lines[1..] == SplitLines(s[m..]);
    }
  }

  lemma TidyIsStripped(s: Text)
    requires Tidy(s)
    ensures Stripped(s) == s
  {
  }

  // A safe and tidy text is kept as it is.
  lemma SafeAndTidyIsFixed(text: Text)
    requires !Unsafe(text) && Tidy(text)
    ensures Sanitized(text) == text
  {
    assert IsSpace('\n');
    assert text != [] ==> text[|text| - 1] != '\n';
    SplitAndJoin(text);
    SafeLinesKept(text);
    TidyIsStripped(text);
  }

  // Sanitising what was sanitised changes nothing.
  lemma SanitizedIsFixed(value: Text)
    ensures Sanitized(Sanitized(value)) == Sanitized(value)
  {
    hide Sanitized, Unsafe, Tidy;
    SanitizedIsSafe(value);
    SanitizedIsTidy(value);
    SafeAndTidyIsFixed(Sanitized(value));
  }

  // What is kept ----------------------------------------------------------------------------------

  // A stretch of a line as redaction reads it: a path, or one character where none begins.
  datatype Stretch = Path(text: Text) | Other(c: char)

  function Original(stretches: seq<Stretch>): Text {
    if stretches == [] then [] else
    (match stretches[0]
     case Path(text) => text
     case Other(c) => [c]) + Original(stretches[1..])
  }

  function Shown(stretches: seq<Stretch>): Text {
    if stretches == [] then [] else
    (match stretches[0]
     case Path(_) => "[redacted-path]"
     case Other(c) => [c]) + Shown(stretches[1..])
  }

  // Read from the left: a path starts with a root and takes every path character that follows, and
  // no path starts at any other character.
  ghost predicate Read(stretches: seq<Stretch>)
    decreases |stretches|
  {
    stretches == [] ||
      ((match stretches[0]
        case Path(text) => StartsPath(text) && (Original(stretches[1..]) == [] || !InPath(Original(stretches[1..])[0]))
        case Other(c) => !PathAt(Original(stretches), 0)) && Read(stretches[1..]))
  }

  // One of the roots and then path characters only, at least one.
  predicate StartsPath(text: Text) {
    exists q | 0 <= q < |ROOTS| :: |ROOTS[q]| < |text| && ROOTS[q] <= text && forall k | |ROOTS[q]| <= k < |text| :: InPath(text[k])
  }

  lemma MatchIsPath(s: Text)
    requires Match(s) > 0
    ensures StartsPath(s[..Match(s)]) && (Match(s) < |s| ==> !InPath(s[Match(s)]))
  {
    hide IsSpace;
    var r := RootLength(s, 0);
    RootFound(s, 0);
    var q :| 0 <= q < |ROOTS| && |ROOTS[q]| == r && Occurs(s, 0, ROOTS[q]);
    var text := s[..Match(s)];
    assert s[r..][0] == s[r];
    assert forall k | 0 <= k < r :: text[k] == s[0 + k];
    forall k | r <= k < |text| ensures InPath(text[k]) { assert text[k] == s[r..][k - r]; }
    if Match(s) < |s| { assert s[Match(s)] == s[r..][Span(s[r..])]; }
  }

  lemma {:induction false} RootFound(s: Text, q: nat)
    requires q <= |ROOTS| && RootLength(s, q) > 0
    ensures exists p | q <= p < |ROOTS| :: |ROOTS[p]| == RootLength(s, q) && Occurs(s, 0, ROOTS[p])
    decreases |ROOTS| - q
  {
    if q < |ROOTS| && !Occurs(s, 0, ROOTS[q]) { RootFound(s, q + 1); }
  }

  // Redaction shows every path of the line as the mark and every other character as it is.
  lemma {:induction false} RedactShowsRest(s: Text) returns (stretches: seq<Stretch>)
    ensures Read(stretches) && Original(stretches) == s && Shown(stretches) == Redact(s)
    decreases |s|
  {
    if s == [] {
      stretches := [];
    } else if Match(s) > 0 {
      var rest := RedactShowsRest(s[Match(s)..]);
      stretches := [Path(s[..Match(s)])] + rest;
      PathStretch(s, rest);
    } else {
      var rest := RedactShowsRest(s[1..]);
      stretches := [Other(s[0])] + rest;
      OtherStretch(s, rest);
    }
  }

  lemma PathStretch(s: Text, rest: seq<Stretch>)
    requires Match(s) > 0 && Read(rest) && Original(rest) == s[Match(s)..] && Shown(rest) == Redact(s[Match(s)..])
    ensures var stretches := [Path(s[..Match(s)])] + rest;
      Read(stretches) && Original(stretches) == s && Shown(stretches) == Redact(s)
  {
    MatchIsPath(s);
    RedactsMatch(s);
    hide StartsPath, InPath, Match, Redact;
    var n := Match(s);
    var stretches := [Path(s[..n])] + rest;
    assert stretches[0] == Path(s[..n]) && stretches[1..] == rest && s[..n] + s[n..] == s;
    assert Original(rest) != [] ==> Original(rest)[0] == s[n];
    assert Original(stretches) == s[..n] + Original(rest);
    assert Shown(stretches) == "[redacted-path]" + Shown(rest);
  }

  lemma RedactsMatch(s: Text)
    requires Match(s) > 0
    ensures Redact(s) == "[redacted-path]" + Redact(s[Match(s)..])
  {
    hide Match;
  }

  lemma OtherStretch(s: Text, rest: seq<Stretch>)
    requires s != [] && Match(s) == 0 && Read(rest) && Original(rest) == s[1..] && Shown(rest) == Redact(s[1..])
    ensures var stretches := [Other(s[0])] + rest;
      Read(stretches) && Original(stretches) == s && Shown(stretches) == Redact(s)
  {
    var stretches := [Other(s[0])] + rest;
    assert stretches[1..] == rest && [s[0]] + s[1..] == s;
    assert Original(stretches) == s;
    assert s[0..] == s;
  }

  // A path as the program means it: one of its roots, and then everything up to space, a closing
  // parenthesis or a quote, at least one character. All of it becomes the mark.
  lemma PathIsRedacted(root: Text, body: Text, rest: Text)
    requires root in ["/Users/", "/private/", "/var/", "/tmp/", "/Volumes/", "/home/", "/opt/"]
    requires body != [] && forall c | c in body :: !IsSpace(c) && c !in ")\"'"
    requires rest != [] ==> IsSpace(rest[0]) || rest[0] in ")\"'"
    ensures Redact(root + body + rest) == "[redacted-path]" + Redact(rest)
  {
    var s := root + body + rest;
    RootMatches(root, body, rest);
    assert s[|root| + |body|..] == rest;
  }

  lemma RootMatches(root: Text, body: Text, rest: Text)
    requires root in ["/Users/", "/private/", "/var/", "/tmp/", "/Volumes/", "/home/", "/opt/"]
    requires body != [] && forall c | c in body :: InPath(c)
    requires rest != [] ==> !InPath(rest[0])
    ensures Match(root + body + rest) == |root| + |body|
  {
    hide IsSpace, InPath, Occurs, Span;
    var s := root + body + rest;
    var q := RootOccurs(root, body, rest);
    RootFound(s, 0);
    var p :| 0 <= p < |ROOTS| && |ROOTS[p]| == RootLength(s, 0) && Occurs(s, 0, ROOTS[p]);
    OneRoot(s, p, q);
    assert s[|root|..] == body + rest;
    SpanTakes(body, rest);
  }

  lemma RootOccurs(root: Text, body: Text, rest: Text) returns (q: nat)
    requires root in ["/Users/", "/private/", "/var/", "/tmp/", "/Volumes/", "/home/", "/opt/"]
    requires body != [] && forall c | c in body :: InPath(c)
    ensures q < |ROOTS| && ROOTS[q] == root && Occurs(root + body + rest, 0, ROOTS[q])
  {
    hide IsSpace, InPath;
    var s := root + body + rest;
    assert root in ROOTS;
    q :| 0 <= q < |ROOTS| && ROOTS[q] == root;
    assert forall k | 0 <= k < |root| :: s[0 + k] == root[k];
    assert s[|root|] == body[0] && body[0] in body;
  }

  // No two roots begin the same text.
  lemma OneRoot(s: Text, p: nat, q: nat)
    requires p < |ROOTS| && q < |ROOTS| && Occurs(s, 0, ROOTS[p]) && Occurs(s, 0, ROOTS[q])
    ensures p == q
  {
    assert ROOTS[p][1] == s[0 + 1] == ROOTS[q][1];
    assert ROOTS[p][2] == s[0 + 2] == ROOTS[q][2];
  }

  lemma {:induction false} SpanTakes(body: Text, rest: Text)
    requires (forall c | c in body :: InPath(c)) && (rest != [] ==> !InPath(rest[0]))
    ensures Span(body + rest) == |body|
    decreases |body|
  {
    hide InPath;
    if body == [] {
      assert body + rest == rest;
    } else {
      assert (body + rest)[0] == body[0] && body[0] in body && (body + rest)[1..] == body[1..] + rest;
      SpanTakes(body[1..], rest);
    }
  }

  // A letter of the two words is found in either case, and k and i also in their other Unicode forms.
  lemma SpelledLetter(c: char, letter: char)
    requires letter in "checkpoint" || letter in "traceback"
    ensures Fold(c) == letter <==>
      || c == letter || (c < '\U{0080}' && c as int + 32 == letter as int)
      || (letter == 'k' && c == '\U{212a}') || (letter == 'i' && (c == '\U{0130}' || c == '\U{0131}'))
  {
  }

  // The lines that mention neither word are kept, in their order, and redacted.
  lemma {:induction false} KeptIsFilter(lines: seq<Text>, more: seq<Text>)
    ensures Kept(lines + more) == Kept(lines) + Kept(more)
    decreases |lines|
  {
    if lines == [] {
      assert lines + more == more;
    } else {
      assert (lines + more)[1..] == lines[1..] + more;
      KeptIsFilter(lines[1..], more);
    }
  }

  lemma KeptOne(line: Text)
    ensures Kept([line]) == if exists i: nat :: WordAt(line, i, "checkpoint") || WordAt(line, i, "traceback") then [] else [Redact(line)]
  {
    assert [line][1..] == [];
    assert CHECKPOINT == "checkpoint" && TRACEBACK == "traceback";
  }

  // A line ends at a line break: one of these characters, or a carriage return and line feed.
  const BREAKS := "\n\r\U{000b}\U{000c}\U{001c}\U{001d}\U{001e}\U{0085}\U{2028}\U{2029}"

  lemma SplitsAtBreak(line: Text, ending: Text, rest: Text)
    requires forall c | c in line :: c !in BREAKS
    requires ending == "\r\n" || (|ending| == 1 && ending[0] in BREAKS && (ending == "\r" && rest != [] ==> rest[0] != '\n'))
    ensures SplitLines(line + ending + rest) == [line] + SplitLines(rest)
  {
    BreaksAre();
    SplitsAtEnd(line, ending, rest);
  }

  lemma BreaksAre()
    ensures forall c :: IsBreak(c) <==> c in BREAKS
  {
  }

  lemma SplitsAtEnd(line: Text, ending: Text, rest: Text)
    requires OneLine(line)
    requires ending == "\r\n" || (|ending| == 1 && IsBreak(ending[0]) && (ending == "\r" && rest != [] ==> rest[0] != '\n'))
    ensures SplitLines(line + ending + rest) == [line] + SplitLines(rest)
  {
    hide SplitLines;
    var s := line + ending + rest;
    BreakFound(line, ending, rest);
    SplitOnce(s);
    assert s[..|line|] == line && s[|line|] == ending[0];
    if ending == "\r\n" { assert s[|line| + 1] == '\n'; } else if ending == "\r" && rest != [] { assert s[|line| + 1] == rest[0]; }
    assert s[|line| + |ending|..] == rest;
  }

  lemma {:induction false} BreakFound(line: Text, ending: Text, rest: Text)
    requires OneLine(line) && ending != [] && IsBreak(ending[0])
    ensures LineLength(line + ending + rest) == |line|
    decreases |line|
  {
    var s := line + ending + rest;
    if line == [] {
      assert s[0] == ending[0];
    } else {
      assert s[0] == line[0] && line[0] in line;
      assert s[1..] == line[1..] + ending + rest;
      BreakFound(line[1..], ending, rest);
    }
  }

  // The characters that count as space.
  lemma SpacesAre(c: char)
    ensures IsSpace(c) <==>
      c in "\t\n\r \U{000b}\U{000c}\U{001c}\U{001d}\U{001e}\U{001f}\U{0085}\U{00a0}\U{1680}\U{2028}\U{2029}\U{202f}\U{205f}\U{3000}" ||
      c in "\U{2000}\U{2001}\U{2002}\U{2003}\U{2004}\U{2005}\U{2006}\U{2007}\U{2008}\U{2009}\U{200a}"
  {
  }

  // Nothing but space is stripped, and all of it.
  lemma StripTakesSpace(s: Text) returns (left: Text, right: Text)
    ensures s == left + Stripped(s) + right
    ensures (forall c | c in left + right :: IsSpace(c)) && (Stripped(s) != [] ==> !IsSpace(Stripped(s)[0]) && !IsSpace(Stripped(s)[|Stripped(s)| - 1]))
  {
    hide IsSpace;
    left := LeftSpace(s);
    right := RightSpace(LeftStripped(s));
    LeftEnd(s);
    RightEnd(LeftStripped(s));
    if Stripped(s) != [] { assert Stripped(s)[0] == (Stripped(s) + right)[0] == LeftStripped(s)[0]; }
  }

  lemma {:induction false} LeftSpace(s: Text) returns (left: Text)
    ensures s == left + LeftStripped(s) && forall c | c in left :: IsSpace(c)
    decreases |s|
  {
    left := [];
    if s != [] && IsSpace(s[0]) {
      var rest := LeftSpace(s[1..]);
      left := [s[0]] + rest;
      assert s == [s[0]] + s[1..];
    }
  }

  lemma {:induction false} RightSpace(s: Text) returns (right: Text)
    ensures s == RightStripped(s) + right && forall c | c in right :: IsSpace(c)
    decreases |s|
  {
    right := [];
    if s != [] && IsSpace(s[|s| - 1]) {
      var rest := RightSpace(s[..|s| - 1]);
      right := rest + [s[|s| - 1]];
      assert s == s[..|s| - 1] + [s[|s| - 1]];
    }
  }

  // Delivery -----------------------------------------------------------------------------------

  // `bounded` is the check of the encoded length.
  ghost predicate PassesDelivery(content: Text, bounded: bool) {
    Stripped(content) != [] && bounded && !Unsafe(content)
  }

  // build_generic_result_artifact keeps a sanitised candidate only if it is non-empty and bounded;
  // such a report always passes the check before delivery.
  lemma KeptReportIsDeliverable(candidate: Text, bounded: bool)
    requires Stripped(Sanitized(candidate)) != [] && bounded
    ensures PassesDelivery(Sanitized(candidate), bounded)
  {
    SanitizedIsSafe(candidate);
  }

  // A text cut at the limit -----------------------------------------------------------------------

  ghost predicate EndsWithRoot(s: Text) {
    exists q | 0 <= q < |ROOTS| :: |ROOTS[q]| <= |s| && s[|s| - |ROOTS[q]|..] == ROOTS[q]
  }

  // The cut is not closed: the ellipsis after a root that stood alone makes a path of it. It
  // is unsafe exactly when the kept part ends with such a root.
  lemma CutIsUnsafeIffRootLast(text: Text, limit: nat)
    requires !Unsafe(text) && limit < |text|
    ensures Unsafe(text[..limit] + [ELLIPSIS]) <==> EndsWithRoot(text[..limit])
  {
    var part := text[..limit];
    PartIsSafe(text, 0, limit);
    assert text[0..limit] == part;
    var cut := part + [ELLIPSIS];
    if EndsWithRoot(part) {
      var q :| 0 <= q < |ROOTS| && |ROOTS[q]| <= |part| && part[|part| - |ROOTS[q]|..] == ROOTS[q];
      EndMakesPath(part, q);
    } else {
      forall i: nat ensures !PathAt(cut, i) { if PathAt(cut, i) { CutPath(part, i); } }
      forall i: nat ensures !WordAt(cut, i, CHECKPOINT) && !WordAt(cut, i, TRACEBACK) {
        if WordAt(cut, i, CHECKPOINT) { CutWord(part, i, CHECKPOINT); }
        if WordAt(cut, i, TRACEBACK) { CutWord(part, i, TRACEBACK); }
      }
    }
  }

  lemma EndMakesPath(part: Text, q: nat)
    requires q < |ROOTS| && |ROOTS[q]| <= |part| && part[|part| - |ROOTS[q]|..] == ROOTS[q]
    ensures Unsafe(part + [ELLIPSIS])
  {
    var cut, i := part + [ELLIPSIS], |part| - |ROOTS[q]|;
    forall k | 0 <= k < |ROOTS[q]| ensures cut[i + k] == ROOTS[q][k] { assert part[i..][k] == ROOTS[q][k]; }
    assert Occurs(cut, i, ROOTS[q]);
    assert PathAt(cut, i);
  }

  // A path in the cut text was in the part, or uses the ellipsis right after a root.
  lemma CutPath(part: Text, i: nat)
    requires PathAt(part + [ELLIPSIS], i)
    ensures PathAt(part, i) || EndsWithRoot(part)
  {
    var cut := part + [ELLIPSIS];
    var q :| 0 <= q < |ROOTS| && Occurs(cut, i, ROOTS[q]);
    forall k | 0 <= k < |ROOTS[q]| ensures part[i + k] == ROOTS[q][k] { assert cut[i + k] == ROOTS[q][k]; }
    if i + |ROOTS[q]| < |part| {
      assert Occurs(part, i, ROOTS[q]);
    } else {
      assert part[|part| - |ROOTS[q]|..] == ROOTS[q];
    }
  }

  lemma CutWord(part: Text, i: nat, word: Text)
    requires Word(word) && WordAt(part + [ELLIPSIS], i, word)
    ensures WordAt(part, i, word)
  {
    var cut := part + [ELLIPSIS];
    assert Fold(ELLIPSIS) == ELLIPSIS && ELLIPSIS !in word;
    if i <= |part| < i + |word| { WordCharacter(cut, i, word, |part|); assert false; }
    forall k | 0 <= k < |word| ensures Fold(part[i + k]) == word[k] { assert Fold(cut[i + k]) == word[k]; }
  }

  // An agent's text whose excerpt is cut behind a bare root, at the limit of the program.
  const EXCERPT_LIMIT := 4000
  const PADDING: Text := seq(3995, _ => 'x')
  const EXAMPLE: Text := PADDING + "/tmp/ x"

  lemma ExampleLetters()
    ensures |EXAMPLE| == 4002
    ensures forall i | 0 <= i < 3995 :: EXAMPLE[i] == 'x'
    ensures EXAMPLE[3995] == '/' && EXAMPLE[3996] == 't' && EXAMPLE[3997] == 'm' && EXAMPLE[3998] == 'p' && EXAMPLE[3999] == '/'
    ensures EXAMPLE[4000] == ' ' && EXAMPLE[4001] == 'x'
  {
    assert forall i | 0 <= i < 7 :: EXAMPLE[3995 + i] == "/tmp/ x"[i];
  }

  lemma ExampleHasNoPath(i: nat)
    ensures !PathAt(EXAMPLE, i)
  {
    ExampleLetters();
    hide PathAt, InPath, IsSpace;
    if PathAt(EXAMPLE, i) { RootIsFollowed(EXAMPLE, i); }
  }

  // A path starts with a slash and another root's letter, and no space follows its root.
  lemma RootIsFollowed(s: Text, i: nat)
    requires PathAt(s, i)
    ensures i + 5 < |s| && s[i] == '/' && s[i + 1] != ' ' && (s[i + 1] == 't' && s[i + 4] == '/' ==> s[i + 5] != ' ')
  {
    var q :| 0 <= q < |ROOTS| && Occurs(s, i, ROOTS[q]);
    assert s[i + 0] == ROOTS[q][0] && s[i + 1] == ROOTS[q][1] && s[i + 4] == ROOTS[q][4];
    assert IsSpace(' ');
  }

  lemma ExampleHasNoWord(i: nat, word: Text)
    requires Word(word)
    ensures !WordAt(EXAMPLE, i, word)
  {
    ExampleLetters();
    assert Fold('x') == 'x' && Fold('/') == '/' && Fold('m') == 'm' && Fold('p') == 'p' && Fold(' ') == ' ' && Fold('t') == 't';
    hide Fold, Word;
    if WordAt(EXAMPLE, i, word) { WordHead(EXAMPLE, i, word); }
  }

  lemma ExampleIsKept()
    ensures !Unsafe(EXAMPLE) && Sanitized(EXAMPLE) == EXAMPLE
  {
    hide PathAt, WordAt, Sanitized;
    forall i: nat ensures !PathAt(EXAMPLE, i) { ExampleHasNoPath(i); }
    forall i: nat ensures !WordAt(EXAMPLE, i, CHECKPOINT) && !WordAt(EXAMPLE, i, TRACEBACK) {
      ExampleHasNoWord(i, CHECKPOINT);
      ExampleHasNoWord(i, TRACEBACK);
    }
    ExampleIsTidy();
    SafeAndTidyIsFixed(EXAMPLE);
  }

  lemma ExampleIsTidy()
    ensures Tidy(EXAMPLE)
  {
    ExampleLetters();
    forall c | c in EXAMPLE ensures !IsBreak(c) {
      var i :| 0 <= i < |EXAMPLE| && EXAMPLE[i] == c;
      assert i < 3995 || i == 3995 || i == 3996 || i == 3997 || i == 3998 || i == 3999 || i == 4000 || i == 4001;
    }
  }

  // Such an input exists: the text is kept as it is, its cut form is unsafe, and so whatever
  // report the excerpt is put into is refused at delivery.
  lemma CutCanBeUnsafe(before: Text, after: Text, bounded: bool)
    ensures Sanitized(EXAMPLE) == EXAMPLE && |EXAMPLE| > EXCERPT_LIMIT && !Unsafe(EXAMPLE)
    ensures var excerpt := EXAMPLE[..EXCERPT_LIMIT] + [ELLIPSIS];
      Unsafe(excerpt) && !PassesDelivery(before + excerpt + after, bounded)
  {
    hide Unsafe, Sanitized;
    ExampleIsKept();
    ExampleLetters();
    var part := EXAMPLE[..EXCERPT_LIMIT];
    assert part[|part| - |ROOTS[3]|..] == ROOTS[3];
    EndMakesPath(part, 3);
    var excerpt := part + [ELLIPSIS];
    var report := before + excerpt + after;
    assert report[|before|..|before| + |excerpt|] == excerpt;
    if !Unsafe(report) { PartIsSafe(report, |before|, |before| + |excerpt|); }
  }
}
