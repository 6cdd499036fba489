/** Cursors of the review list (api/review_models.py) and the keyset paging that follows them
    (api/review_repository.py). */
module ReviewCursor {
  import opened ReviewTypes
  import opened LeaseTime

  newtype byte = x: int | 0 <= x < 256

  // base64url --------------------------------------------------------------------------------

  // A-Z, a-z, 0-9, hyphen and underscore.
  function Letter(v: nat): (c: char)
    requires v < 64
    ensures c != '='
    ensures ValueOf(c) == Some(v)
  {
    if v < 26 then ('A' as int + v) as char
    else if v < 52 then ('a' as int + v - 26) as char
    else if v < 62 then ('0' as int + v - 52) as char
    else if v == 62 then '-'
    else '_'
  }

  function ValueOf(c: char): (v: Option<nat>)
    ensures v.Some? ==> v.value < 64
  {
    if 'A' <= c <= 'Z' then Some(c as int - 'A' as int)
    else if 'a' <= c <= 'z' then Some(c as int - 'a' as int + 26)
    else if '0' <= c <= '9' then Some(c as int - '0' as int + 52)
    else if c == '-' then Some(62)
    else if c == '_' then Some(63)
    else None
  }

  // The alphabet of base64url, RFC 4648 section 5.
  const UPPER := "ABCDEFGHIJKLMNOPQRSTUVWXYZ"
  const LOWER := "abcdefghijklmnopqrstuvwxyz"
  const ALPHABET := UPPER + LOWER + "0123456789-_"

  lemma LetterIsOfAlphabet(v: nat)
    requires v < 64
    ensures |ALPHABET| == 64 && Letter(v) == ALPHABET[v]
  {
    assert |UPPER| == 26 && |LOWER| == 26 && |"0123456789-_"| == 12;
    if v < 26 { LetterIsUpper(v); } else if v < 52 { LetterIsLower(v - 26); } else { LetterIsOther(v - 52); }
  }

  lemma LetterIsUpper(v: nat)
    requires v < 26
    ensures Letter(v) == UPPER[v]
  {
  }

  lemma LetterIsLower(v: nat)
    requires v < 26
    ensures Letter(v + 26) == LOWER[v]
  {
  }

  lemma LetterIsOther(v: nat)
    requires v < 12
    ensures Letter(v + 52) == "0123456789-_"[v]
  {
  }

  function EncodeOne(a: int): string
    requires 0 <= a < 256
  {
    [Letter(a / 4), Letter(a % 4 * 16)]
  }

  function EncodeTwo(a: int, b: int): string
    requires 0 <= a < 256 && 0 <= b < 256
  {
    [Letter(a / 4), Letter(a % 4 * 16 + b / 16), Letter(b % 16 * 4)]
  }

  function EncodeThree(a: int, b: int, c: int): string
    requires 0 <= a < 256 && 0 <= b < 256 && 0 <= c < 256
  {
    [Letter(a / 4), Letter(a % 4 * 16 + b / 16), Letter(b % 16 * 4 + c / 64), Letter(c % 64)]
  }

  // urlsafe_b64encode
  function Encode(raw: seq<byte>): string {
    if raw == [] then ""
    else if |raw| == 1 then EncodeOne(raw[0] as int) + "=="
    else if |raw| == 2 then EncodeTwo(raw[0] as int, raw[1] as int) + "="
    else EncodeThree(raw[0] as int, raw[1] as int, raw[2] as int) + Encode(raw[3..])
  }

  // rstrip("=")
  function Unpadded(s: string): string {
    if s != "" && s[|s| - 1] == '=' then Unpadded(s[..|s| - 1]) else s
  }

  // cursor + "=" * (-len(cursor) % 4)
  function Repadded(s: string): string {
    match |s| % 4
    case 0 => s
    case 1 => s + "==="
    case 2 => s + "=="
    case _ => s + "="
  }

  // One group of four characters, the last of which may be padding.
  function DecodeGroup(s: string): Option<seq<byte>>
    requires |s| == 4
  {
    var a, b, c, d := ValueOf(s[0]), ValueOf(s[1]), ValueOf(s[2]), ValueOf(s[3]);
    if a.None? || b.None? then None
    else if s[2] == '=' && s[3] == '=' then Some([(a.value * 4 + b.value / 16) as byte])
    else if c.None? then None
    else if s[3] == '=' then Some([(a.value * 4 + b.value / 16) as byte, (b.value % 16 * 16 + c.value / 4) as byte])
    else if d.None? then None
    else Some([(a.value * 4 + b.value / 16) as byte, (b.value % 16 * 16 + c.value / 4) as byte, (c.value % 4 * 64 + d.value) as byte])
  }

  // urlsafe_b64decode of a whole number of groups.
  function Decode(s: string): Option<seq<byte>> {
    if s == "" then Some([])
    else if |s| < 4 then None
    else
      var head := DecodeGroup(s[..4]);
      var rest := Decode(s[4..]);
      if head.None? || rest.None? then None else Some(head.value + rest.value)
  }

  lemma GroupOfOne(a: byte)
    ensures DecodeGroup(EncodeOne(a as int) + "==") == Some([a])
  {
    var x := a as int;
    assert x / 4 * 4 + x % 4 * 16 / 16 == x;
  }

  lemma GroupOfTwo(a: byte, b: byte)
    ensures DecodeGroup(EncodeTwo(a as int, b as int) + "=") == Some([a, b])
  {
    hide Letter, ValueOf;
    var x, y := a as int, b as int;
    assert (x % 4 * 16 + y / 16) / 16 == x % 4 && (x % 4 * 16 + y / 16) % 16 == y / 16;
    assert y % 16 * 4 / 4 == y % 16;
    var s := EncodeTwo(x, y) + "=";
    assert s == [Letter(x / 4), Letter(x % 4 * 16 + y / 16), Letter(y % 16 * 4), '='];
  }

  lemma GroupOfThree(a: byte, b: byte, c: byte)
    ensures DecodeGroup(EncodeThree(a as int, b as int, c as int)) == Some([a, b, c])
  {
    var x, y, z := a as int, b as int, c as int;
    assert (x % 4 * 16 + y / 16) / 16 == x % 4 && (x % 4 * 16 + y / 16) % 16 == y / 16;
    assert (y % 16 * 4 + z / 64) / 4 == y % 16 && (y % 16 * 4 + z / 64) % 4 == z / 64;
    assert z / 64 * 64 + z % 64 == z;
  }

  lemma DecodeCons(group: string, rest: string)
    requires |group| == 4
    ensures Decode(group + rest) ==
      if DecodeGroup(group).None? || Decode(rest).None? then None else Some(DecodeGroup(group).value + Decode(rest).value)
  {
    hide DecodeGroup;
    assert (group + rest)[..4] == group && (group + rest)[4..] == rest;
  }

  lemma {:induction false} DecodesEncoded(raw: seq<byte>)
    ensures Decode(Encode(raw)) == Some(raw) && |Encode(raw)| % 4 == 0
    decreases |raw|
  {
    hide Decode, DecodeGroup, Letter, ValueOf;
    if raw == [] {
      DecodesNothing();
    } else if |raw| == 1 {
      GroupOfOne(raw[0]);
      DecodeCons(EncodeOne(raw[0] as int) + "==", "");
      DecodesNothing();
      assert EncodeOne(raw[0] as int) + "==" + "" == EncodeOne(raw[0] as int) + "==" && [raw[0]] + [] == raw;
    } else if |raw| == 2 {
      GroupOfTwo(raw[0], raw[1]);
      DecodeCons(EncodeTwo(raw[0] as int, raw[1] as int) + "=", "");
      DecodesNothing();
      assert EncodeTwo(raw[0] as int, raw[1] as int) + "=" + "" == EncodeTwo(raw[0] as int, raw[1] as int) + "=";
      assert [raw[0], raw[1]] + [] == raw;
    } else {
      GroupOfThree(raw[0], raw[1], raw[2]);
      DecodesEncoded(raw[3..]);
      DecodeCons(EncodeThree(raw[0] as int, raw[1] as int, raw[2] as int), Encode(raw[3..]));
      assert raw == [raw[0], raw[1], raw[2]] + raw[3..];
    }
  }

  lemma DecodesNothing()
    ensures Decode("") == Some([])
  {
  }

  lemma UnpaddedOne(s: string)
    requires s == "" || s[|s| - 1] != '='
    ensures Unpadded(s) == s && Unpadded(s + "=") == s && Unpadded(s + "==") == s
  {
    assert (s + "=")[..|s|] == s;
    assert (s + "==")[..|s| + 1] == s + "=";
  }

  // Stripping the padding and adding it back by the length gives the same text.
  lemma {:induction false} RepadsEncoded(raw: seq<byte>)
    ensures Repadded(Unpadded(Encode(raw))) == Encode(raw)
    decreases |raw|
  {
    hide Unpadded, Repadded, Letter;
    if raw == [] {
      RepadsShort("");
    } else if |raw| == 1 {
      RepadsShort(EncodeOne(raw[0] as int));
    } else if |raw| == 2 {
      RepadsShort(EncodeTwo(raw[0] as int, raw[1] as int));
    } else {
      RepadsEncoded(raw[3..]);
      var head, rest := EncodeThree(raw[0] as int, raw[1] as int, raw[2] as int), Encode(raw[3..]);
      UnpadsTail(head, rest);
      RepadsTail(head, Unpadded(rest));
    }
  }

  lemma RepadsShort(s: string)
    requires |s| < 4 && |s| != 1 && (s == "" || s[|s| - 1] != '=')
    ensures |s| == 0 ==> Repadded(Unpadded(s)) == s
    ensures |s| == 2 ==> Repadded(Unpadded(s + "==")) == s + "=="
    ensures |s| == 3 ==> Repadded(Unpadded(s + "=")) == s + "="
  {
    UnpaddedOne(s);
  }

  lemma {:induction false} UnpadsTail(head: string, rest: string)
    requires head != "" && head[|head| - 1] != '='
    ensures Unpadded(head + rest) == head + Unpadded(rest)
    decreases |rest|
  {
    if rest == "" {
      assert head + rest == head;
      assert head + Unpadded(rest) == head;
    } else if rest[|rest| - 1] == '=' {
      assert (head + rest)[..|head + rest| - 1] == head + rest[..|rest| - 1];
      UnpadsTail(head, rest[..|rest| - 1]);
    }
  }

  lemma RepadsTail(head: string, rest: string)
    requires |head| == 4
    ensures Repadded(head + rest) == head + Repadded(rest)
  {
    assert |head + rest| % 4 == |rest| % 4;
    assert (head + rest) + "===" == head + (rest + "===");
    assert (head + rest) + "==" == head + (rest + "==");
    assert (head + rest) + "=" == head + (rest + "=");
  }

  // Cursors ------------------------------------------------------------------------------------

  // Where a row stands in the list.
  datatype Key = Key(createdAt: string, workflowId: string)

  // A hexadecimal digit, and a UTF-16 code unit as four of them.
  function HexDigit(d: nat): (c: char)
    requires d < 16
    ensures HexValue(c) == Some(d) && c < '\U{0080}'
  {
    if d < 10 then ('0' as int + d) as char else ('a' as int + d - 10) as char
  }

  function HexValue(c: char): (d: Option<nat>)
    ensures d.Some? ==> d.value < 16
  {
    if '0' <= c <= '9' then Some(c as int - '0' as int)
    else if 'a' <= c <= 'f' then Some(c as int - 'a' as int + 10)
    else if 'A' <= c <= 'F' then Some(c as int - 'A' as int + 10)
    else None
  }

  function Unit(n: nat): (s: string)
    requires n < 0x10000
    ensures |s| == 4
  {
    [HexDigit(n / 4096), HexDigit(n / 256 % 16), HexDigit(n / 16 % 16), HexDigit(n % 16)]
  }

  function ReadUnit(s: string): (n: Option<nat>)
    ensures n.Some? ==> n.value < 0x10000 && |s| >= 4
  {
    if |s| < 4 then None else
    var a, b, c, d := HexValue(s[0]), HexValue(s[1]), HexValue(s[2]), HexValue(s[3]);
    if a.None? || b.None? || c.None? || d.None? then None
    else Some(a.value * 4096 + b.value * 256 + c.value * 16 + d.value)
  }

  lemma UnitReads(n: nat, rest: string)
    requires n < 0x10000
    ensures ReadUnit(Unit(n) + rest) == Some(n)
  {
    hide HexDigit, HexValue;
    var s := Unit(n) + rest;
    assert s[0] == HexDigit(n / 4096) && s[1] == HexDigit(n / 256 % 16) && s[2] == HexDigit(n / 16 % 16) && s[3] == HexDigit(n % 16);
    assert n / 256 == n / 4096 * 16 + n / 256 % 16;
    assert n / 16 == n / 256 * 16 + n / 16 % 16;
    assert n == n / 16 * 16 + n % 16;
  }

  // The characters with an escape of two characters, and its second one.
  function ShortEscape(c: char): Option<char> {
    if c == '\"' then Some('\"') else if c == '\\' then Some('\\') else if c == '\n' then Some('n')
    else if c == '\r' then Some('r') else if c == '\t' then Some('t') else if c == '\U{000c}' then Some('f')
    else if c == '\U{0008}' then Some('b') else None
  }

  // How json.dumps writes a character inside a string.
  function Quoted(c: char): string {
    if ShortEscape(c).Some? then ['\\', ShortEscape(c).value]
    else if ' ' <= c <= '~' then [c]
    else if c as int < 0x10000 then ['\\', 'u'] + Unit(c as int)
    else ['\\', 'u'] + Unit(0xD800 + (c as int - 0x10000) / 1024) + (['\\', 'u'] + Unit(0xDC00 + (c as int - 0x10000) % 1024))
  }

  function QuotedText(s: string): string {
    if s == "" then "" else Quoted(s[0]) + QuotedText(s[1..])
  }

  // json.dumps of the pair.
  function Json(key: Key): string {
    "[\"" + (QuotedText(key.createdAt) + ("\"" + (",\"" + (QuotedText(key.workflowId) + ("\"" + "]")))))
  }

  // The character behind an escape of two characters.
  function ShortMeaning(c: char): Option<char> {
    if c == '\"' || c == '\\' || c == '/' then Some(c) else if c == 'n' then Some('\n') else if c == 'r' then Some('\r')
    else if c == 't' then Some('\t') else if c == 'f' then Some('\U{000c}') else if c == 'b' then Some('\U{0008}') else None
  }

  // The next character of a string and the length of its text. One half of a surrogate pair
  // without the other is no character here.
  function ReadCharacter(s: string): (r: Option<(char, nat)>)
    requires s != ""
    ensures r.Some? ==> 1 <= r.value.1 <= |s|
  {
    if s[0] != '\\' then (if s[0] < ' ' then None else Some((s[0], 1)))
    else if |s| < 2 then None
    else if s[1] != 'u' then (if ShortMeaning(s[1]).None? then None else Some((ShortMeaning(s[1]).value, 2)))
    else
      var first := ReadUnit(s[2..]);
      if first.None? then None
      else if first.value < 0xD800 || first.value >= 0xE000 then Some((first.value as char, 6))
      else if first.value >= 0xDC00 || !("\\u" <= s[6..]) then None
      else
        var second := ReadUnit(s[8..]);
        if second.None? || second.value < 0xDC00 || second.value >= 0xE000 then None
        else Some(((0x10000 + (first.value - 0xD800) * 1024 + (second.value - 0xDC00)) as char, 12))
  }

  // A string up to its closing quote, and what follows.
  function ReadString(s: string): (r: Option<(string, string)>)
    decreases |s|
  {
    if s == "" then None
    else if s[0] == '\"' then Some(("", s[1..]))
    else
      match ReadCharacter(s)
      case None => None
      case Some((c, n)) =>
        match ReadString(s[n..])
        case None => None
        case Some((text, rest)) => Some(([c] + text, rest))
  }

  // json.loads of a pair of strings.
  function ParseJson(s: string): Option<Key> {
    if !("[\"" <= s) then None else
    match ReadString(s[2..])
    case None => None
    case Some((createdAt, rest)) =>
      if !(",\"" <= rest) then None else
      match ReadString(rest[2..])
      case None => None
      case Some((workflowId, end)) => if end != "]" then None else Some(Key(createdAt, workflowId))
  }

  lemma UnitEscapeReads(n: nat, rest: string)
    requires n < 0xD800 || 0xE000 <= n < 0x10000
    ensures ReadCharacter(['\\', 'u'] + Unit(n) + rest) == Some((n as char, 6))
  {
    hide Unit, ReadUnit;
    var s := ['\\', 'u'] + Unit(n) + rest;
    assert s[2..] == Unit(n) + rest;
    UnitReads(n, rest);
  }

  lemma PairEscapeReads(n: nat, rest: string)
    requires n < 0x100000
    ensures ReadCharacter(['\\', 'u'] + Unit(0xD800 + n / 1024) + (['\\', 'u'] + Unit(0xDC00 + n % 1024)) + rest) ==
      Some(((0x10000 + n) as char, 12))
  {
    hide Unit, ReadUnit;
    var first, second := Unit(0xD800 + n / 1024), Unit(0xDC00 + n % 1024);
    var s := ['\\', 'u'] + first + (['\\', 'u'] + second) + rest;
    assert s[2..] == first + (['\\', 'u'] + second + rest);
    assert s[6..] == ['\\', 'u'] + second + rest && s[6..][0] == '\\' && s[6..][1] == 'u';
    assert s[8..] == second + rest;
    UnitReads(0xD800 + n / 1024, ['\\', 'u'] + second + rest);
    UnitReads(0xDC00 + n % 1024, rest);
    assert n / 1024 * 1024 + n % 1024 == n;
  }

  lemma CharacterReads(c: char, rest: string)
    ensures ReadCharacter(Quoted(c) + rest) == Some((c, |Quoted(c)|))
  {
    hide Unit, ReadUnit;
    var s := Quoted(c) + rest;
    if ShortEscape(c).Some? {
      assert s[0] == '\\' && s[1] == ShortEscape(c).value;
    } else if ' ' <= c <= '~' {
      assert s[0] == c;
    } else if c as int < 0x10000 {
      UnitEscapeReads(c as int, rest);
    } else {
      PairEscapeReads(c as int - 0x10000, rest);
    }
  }

  lemma QuotedStart(c: char, rest: string)
    ensures Quoted(c) != "" && (Quoted(c) + rest)[0] != '\"'
  {
    assert (Quoted(c) + rest)[0] == Quoted(c)[0];
  }

  lemma {:induction false} StringReads(s: string, rest: string)
    ensures ReadString(QuotedText(s) + ("\"" + rest)) == Some((s, rest))
    decreases |s|
  {
    hide Quoted, ReadCharacter;
    var tail := "\"" + rest;
    if s == "" {
      assert "" + tail == tail && tail[1..] == rest;
    } else {
      var next := QuotedText(s[1..]) + tail;
      assert QuotedText(s) + tail == Quoted(s[0]) + next;
      QuotedStart(s[0], next);
      CharacterReads(s[0], next);
      assert (Quoted(s[0]) + next)[|Quoted(s[0])|..] == next;
      StringReads(s[1..], rest);
      assert s == [s[0]] + s[1..];
    }
  }

  lemma ParsesJson(key: Key)
    ensures ParseJson(Json(key)) == Some(key)
  {
    hide QuotedText, ReadString;
    var end := QuotedText(key.workflowId) + ("\"" + "]");
    var rest := ",\"" + end;
    assert Json(key)[2..] == QuotedText(key.createdAt) + ("\"" + rest);
    StringReads(key.createdAt, rest);
    assert rest[2..] == end;
    StringReads(key.workflowId, "]");
  }

  function Bytes(s: string): (raw: seq<byte>)
    requires Ascii(s)
    ensures |raw| == |s|
  {
    seq(|s|, i requires 0 <= i < |s| => (assert s[i] in s; s[i] as int) as byte)
  }

  function Chars(raw: seq<byte>): string {
    seq(|raw|, i requires 0 <= i < |raw| => raw[i] as int as char)
  }

  predicate Ascii(s: string) {
    forall c | c in s :: c < '\U{0080}'
  }

  lemma QuotedIsAscii(c: char)
    ensures Ascii(Quoted(c))
  {
  }

  lemma {:induction false} TextIsAscii(s: string)
    ensures Ascii(QuotedText(s))
    decreases |s|
  {
    hide Quoted;
    if s != "" {
      QuotedIsAscii(s[0]);
      TextIsAscii(s[1..]);
    }
  }

  lemma JsonIsAscii(key: Key)
    ensures Ascii(Json(key))
  {
    hide QuotedText;
    TextIsAscii(key.createdAt);
    TextIsAscii(key.workflowId);
  }

  // encode_review_cursor
  function EncodeCursor(key: Key): string {
    JsonIsAscii(key);
    Unpadded(Encode(Bytes(Json(key))))
  }

  // decode_review_cursor, with its two checks of what the cursor holds.
  function DecodeCursor(cursor: string, valid: Key -> bool): Option<Key> {
    match Decode(Repadded(cursor))
    case None => None
    case Some(raw) =>
      match ParseJson(Chars(raw))
      case None => None
      case Some(key) => if valid(key) then Some(key) else None
  }

  // A cursor leads back to the row it was made from.
  lemma CursorRoundTrip(key: Key, valid: Key -> bool)
    ensures DecodeCursor(EncodeCursor(key), valid) == if valid(key) then Some(key) else None
  {
    JsonIsAscii(key);
    hide Json, Ascii;
    var raw := Bytes(Json(key));
    assert Chars(raw) == Json(key);
    RepadsEncoded(raw);
    DecodesEncoded(raw);
    ParsesJson(key);
  }

  // A cursor stands in a URL as it is: it has letters of the alphabet only, and no padding.
  lemma CursorIsUrlSafe(key: Key)
    ensures forall c | c in EncodeCursor(key) :: c in ALPHABET
  {
    hide Json, Ascii;
    JsonIsAscii(key);
    UnpaddedIsSafe(Bytes(Json(key)));
  }

  lemma {:induction false} UnpaddedIsSafe(raw: seq<byte>)
    ensures forall c | c in Unpadded(Encode(raw)) :: c in ALPHABET
    decreases |raw|
  {
    hide Letter, Unpadded;
    forall v: nat | v < 64 ensures Letter(v) in ALPHABET { LetterIsOfAlphabet(v); }
    if raw == [] {
      UnpaddedOne("");
    } else if |raw| == 1 {
      UnpaddedOne(EncodeOne(raw[0] as int));
    } else if |raw| == 2 {
      UnpaddedOne(EncodeTwo(raw[0] as int, raw[1] as int));
    } else {
      UnpaddedIsSafe(raw[3..]);
      UnpadsTail(EncodeThree(raw[0] as int, raw[1] as int, raw[2] as int), Encode(raw[3..]));
    }
  }

  // Paging -------------------------------------------------------------------------------------

  // created_at < ? OR (created_at = ? AND workflow_id < ?)
  predicate Below(a: Key, b: Key) {
    Less(a.createdAt, b.createdAt) || (a.createdAt == b.createdAt && Less(a.workflowId, b.workflowId))
  }

  lemma BelowIsTotal(a: Key, b: Key)
    ensures a == b || Below(a, b) || Below(b, a)
  {
    LessIsTotal(a.createdAt, b.createdAt);
    LessIsTotal(a.workflowId, b.workflowId);
  }

  lemma BelowIsTransitive(a: Key, b: Key, c: Key)
    requires Below(a, b) && Below(b, c)
    ensures Below(a, c)
  {
    if Less(a.createdAt, b.createdAt) && Less(b.createdAt, c.createdAt) { LessIsTransitive(a.createdAt, b.createdAt, c.createdAt); }
    if Less(a.workflowId, b.workflowId) && Less(b.workflowId, c.workflowId) { LessIsTransitive(a.workflowId, b.workflowId, c.workflowId); }
  }

  lemma BelowIsIrreflexive(a: Key)
    ensures !Below(a, a)
  {
    Irreflexive(a.createdAt);
    Irreflexive(a.workflowId);
  }

  // ORDER BY created_at DESC, workflow_id DESC
  function Ordered(rows: seq<Key>): seq<Key> {
    if rows == [] then [] else Inserted(Ordered(rows[1..]), rows[0])
  }

  function Inserted(rows: seq<Key>, row: Key): seq<Key> {
    if rows == [] || !Below(row, rows[0]) then [row] + rows else [rows[0]] + Inserted(rows[1..], row)
  }

  predicate Descending(rows: seq<Key>) {
    forall i, j | 0 <= i < j < |rows| :: Below(rows[j], rows[i])
  }

  lemma {:induction false} InsertedKeeps(rows: seq<Key>, row: Key)
    ensures multiset(Inserted(rows, row)) == multiset(rows) + multiset{row}
  {
    if rows != [] && Below(row, rows[0]) {
      InsertedKeeps(rows[1..], row);
      assert rows == [rows[0]] + rows[1..];
    }
  }

  lemma {:induction false} InsertedDescends(rows: seq<Key>, row: Key)
    requires Descending(rows) && row !in rows
    ensures Descending(Inserted(rows, row))
  {
    hide Below;
    if rows != [] {
      BelowIsTotal(row, rows[0]);
      if !Below(row, rows[0]) {
        forall j | 0 <= j < |rows| ensures Below(rows[j], row) {
          if j > 0 { BelowIsTransitive(rows[j], rows[0], row); }
        }
      } else {
        InsertedDescends(rows[1..], row);
        var rest := Inserted(rows[1..], row);
        InsertedKeeps(rows[1..], row);
        forall j | 0 <= j < |rest| ensures Below(rest[j], rows[0]) {
          assert rest[j] in multiset(rest);
          if rest[j] != row { assert rest[j] in rows[1..]; }
        }
      }
    }
  }

  // Ordering lists every row exactly once, each below the one before.
  lemma {:induction false} OrderedDescends(rows: seq<Key>)
    requires forall i, j | 0 <= i < j < |rows| :: rows[i] != rows[j]
    ensures Descending(Ordered(rows)) && multiset(Ordered(rows)) == multiset(rows)
  {
    if rows != [] {
      OrderedDescends(rows[1..]);
      var rest := Ordered(rows[1..]);
      assert rows == [rows[0]] + rows[1..];
      assert rows[0] !in rows[1..];
      assert rows[0] !in multiset(rest);
      InsertedDescends(rest, rows[0]);
      InsertedKeeps(rest, rows[0]);
    }
  }

  // The rows that the query lets through, in order.
  function Behind(rows: seq<Key>, cursor: Option<Key>): seq<Key> {
    if rows == [] then [] else
    (if cursor.None? || Below(rows[0], cursor.value) then [rows[0]] else []) + Behind(rows[1..], cursor)
  }

  lemma {:induction false} BehindNothing(rows: seq<Key>)
    ensures Behind(rows, None) == rows
  {
    if rows != [] { BehindNothing(rows[1..]); }
  }

  // Behind the cursor of row i come exactly the rows after it.
  lemma {:induction false} BehindRow(rows: seq<Key>, i: nat)
    requires Descending(rows) && i < |rows|
    ensures Behind(rows, Some(rows[i])) == rows[i + 1..]
  {
    hide Below;
    if i == 0 {
      BelowIsIrreflexive(rows[0]);
      AllBehind(rows[1..], rows[0]);
      assert rows[0 + 1..] == rows[1..];
    } else {
      assert Below(rows[i], rows[0]);
      BehindRow(rows[1..], i - 1);
      if Below(rows[0], rows[i]) { BelowIsTransitive(rows[0], rows[i], rows[0]); BelowIsIrreflexive(rows[0]); assert false; }
      assert rows[1..][i - 1] == rows[i] && rows[1..][i..] == rows[i + 1..];
    }
  }

  lemma {:induction false} AllBehind(rows: seq<Key>, cursor: Key)
    requires forall j | 0 <= j < |rows| :: Below(rows[j], cursor)
    ensures Behind(rows, Some(cursor)) == rows
  {
    if rows != [] {
      assert Below(rows[0], cursor);
      AllBehind(rows[1..], cursor);
    }
  }

  // list_review_workflows over the rows of one status.
  method ListReviews(rows: seq<Key>, limit: nat, cursor: Option<Key>) returns (page: seq<Key>, next: Option<string>)
    requires limit > 0
    ensures var found := Behind(Ordered(rows), cursor);
      && page == (if |found| > limit then found[..limit] else found)
      && next == (if |found| > limit then Some(EncodeCursor(found[limit - 1])) else None)
  {
    hide Below, Inserted, EncodeCursor;
    var found := Behind(Ordered(rows), cursor);
    var fetched := if |found| > limit + 1 then found[..limit + 1] else found;
    page := if |fetched| > limit then fetched[..limit] else fetched;
    next := None;
    if |fetched| > limit { next := Some(EncodeCursor(page[|page| - 1])); }
  }

  // The rows, each as often, in the order of the list.
  ghost predicate Sorted(all: seq<Key>, rows: seq<Key>) {
    Descending(all) && multiset(all) == multiset(rows)
  }

  lemma OrderedIsSorted(rows: seq<Key>)
    requires forall i, j | 0 <= i < j < |rows| :: rows[i] != rows[j]
    ensures Sorted(Ordered(rows), rows) && Descending(Ordered(rows))
  {
    OrderedDescends(rows);
  }

  lemma {:induction false} OrderedStaysValid(rows: seq<Key>, valid: Key -> bool)
    requires forall key | key in rows :: valid(key)
    ensures forall i | 0 <= i < |Ordered(rows)| :: valid(Ordered(rows)[i])
  {
    if rows != [] {
      OrderedStaysValid(rows[1..], valid);
      InsertedStaysValid(Ordered(rows[1..]), rows[0], valid);
    }
  }

  lemma {:induction false} InsertedStaysValid(rows: seq<Key>, row: Key, valid: Key -> bool)
    requires valid(row) && forall i | 0 <= i < |rows| :: valid(rows[i])
    ensures forall i | 0 <= i < |Inserted(rows, row)| :: valid(Inserted(rows, row)[i])
  {
    if rows != [] && Below(row, rows[0]) { InsertedStaysValid(rows[1..], row, valid); }
  }

  // Following the cursors from the first page of an unchanged list, whose rows pass the checks of
  // a cursor, yields every row exactly once, newest first.
  method FollowCursors(rows: seq<Key>, limit: nat, valid: Key -> bool) returns (all: seq<Key>)
    requires limit > 0 && forall key | key in rows :: valid(key)
    requires forall i, j | 0 <= i < j < |rows| :: rows[i] != rows[j]
    ensures Sorted(all, rows)
  {
    hide Sorted, Descending, Ordered, Behind, EncodeCursor, DecodeCursor;
    ghost var sorted := Ordered(rows);
    OrderedIsSorted(rows);
    OrderedStaysValid(rows, valid);
    BehindNothing(sorted);
    var page, next := ListReviews(rows, limit, None);
    FirstPage(sorted, limit, page, next);
    all := page;
    while next.Some?
      invariant ReadSoFar(sorted, all, next)
      decreases |sorted| - |all|
    {
      CursorRoundTrip(sorted[|all| - 1], valid);
      BehindRow(sorted, |all| - 1);
      page, next := ListReviews(rows, limit, DecodeCursor(next.value, valid));
      PageContinues(sorted, all, limit, page, next);
      all := all + page;
    }
    assert sorted[..|sorted|] == sorted;
  }

  // The first rows have been read, and the cursor of the last one is at hand if more remain.
  ghost predicate ReadSoFar(sorted: seq<Key>, all: seq<Key>, next: Option<string>) {
    && |all| <= |sorted| && all == sorted[..|all|]
    && (next.None? <==> |all| == |sorted|)
    && (next.Some? ==> |all| > 0 && next.value == EncodeCursor(sorted[|all| - 1]))
  }

  // A page of what remains of the list continues what was read of it.
  lemma PageContinues(sorted: seq<Key>, all: seq<Key>, limit: nat, page: seq<Key>, next: Option<string>)
    requires |all| <= |sorted| && all == sorted[..|all|] && limit > 0
    requires var found := sorted[|all|..];
      && page == (if |found| > limit then found[..limit] else found)
      && next == (if |found| > limit then Some(EncodeCursor(found[limit - 1])) else None)
    ensures ReadSoFar(sorted, all + page, next)
    ensures |sorted| > |all| ==> |all + page| > |all|
  {
    hide EncodeCursor;
    var n := |all|;
    assert sorted[..n] + sorted[n..] == sorted;
    assert all + page == sorted[..n + |page|];
    if |sorted[n..]| > limit { assert sorted[n..][limit - 1] == sorted[n + limit - 1]; }
  }

  lemma FirstPage(sorted: seq<Key>, limit: nat, page: seq<Key>, next: Option<string>)
    requires limit > 0
    requires page == (if |sorted| > limit then sorted[..limit] else sorted)
    requires next == (if |sorted| > limit then Some(EncodeCursor(sorted[limit - 1])) else None)
    ensures ReadSoFar(sorted, page, next)
  {
    hide EncodeCursor;
    assert sorted[0..] == sorted && [] + page == page;
    PageContinues(sorted, [], limit, page, next);
  }

  // A list that changes -------------------------------------------------------------------------

  // Whatever the cursor, what is behind it are the rows of the list that come later in its order.
  lemma {:induction false} BehindIsBelow(rows: seq<Key>, cursor: Key)
    ensures forall row :: row in Behind(rows, Some(cursor)) <==>
      && row in rows
      && (Less(row.createdAt, cursor.createdAt) || (row.createdAt == cursor.createdAt && Less(row.workflowId, cursor.workflowId)))
    ensures Descending(rows) ==> Descending(Behind(rows, Some(cursor)))
  {
    if rows != [] {
      BehindIsBelow(rows[1..], cursor);
      var rest := Behind(rows[1..], Some(cursor));
      if Descending(rows) {
        hide Below;
        assert Descending(rows[1..]);
        forall row | row in rest ensures Below(row, rows[0]) {
          var j :| 0 <= j < |rows[1..]| && rows[1..][j] == row;
          assert Below(rows[j + 1], rows[0]);
        }
        forall j | 0 <= j < |rest| ensures Below(rest[j], rows[0]) { assert rest[j] in rest; }
      }
    }
  }

  // The pages that a client reads while the list changes: `lists` are the rows at each of its requests.
  function ReadOn(lists: seq<seq<Key>>, limit: nat, cursor: Option<Key>): seq<Key>
    requires limit > 0
    decreases |lists|
  {
    if lists == [] then [] else
    var found := Behind(Ordered(lists[0]), cursor);
    if |found| <= limit then found else found[..limit] + ReadOn(lists[1..], limit, Some(found[limit - 1]))
  }

  // One of the pages was the last.
  predicate Ends(lists: seq<seq<Key>>, limit: nat, cursor: Option<Key>)
    requires limit > 0
    decreases |lists|
  {
    lists != [] &&
    var found := Behind(Ordered(lists[0]), cursor);
    |found| <= limit || Ends(lists[1..], limit, Some(found[limit - 1]))
  }

  predicate Distinct(rows: seq<Key>) {
    forall i, j | 0 <= i < j < |rows| :: rows[i] != rows[j]
  }

  predicate After(row: Key, cursor: Option<Key>) {
    cursor.None? || Below(row, cursor.value)
  }

  lemma FoundIsAfter(rows: seq<Key>, cursor: Option<Key>)
    requires Distinct(rows)
    ensures var found := Behind(Ordered(rows), cursor);
      Descending(found) && forall row :: row in found <==> row in rows && After(row, cursor)
  {
    hide Below, Descending;
    OrderedDescends(rows);
    assert forall row :: row in Ordered(rows) <==> row in multiset(Ordered(rows));
    assert forall row :: row in rows <==> row in multiset(rows);
    if cursor.None? { BehindNothing(Ordered(rows)); } else { BehindIsAfter(Ordered(rows), cursor.value); }
  }

  lemma BehindIsAfter(rows: seq<Key>, cursor: Key)
    ensures forall row :: row in Behind(rows, Some(cursor)) <==> row in rows && Below(row, cursor)
    ensures Descending(rows) ==> Descending(Behind(rows, Some(cursor)))
  {
    BehindIsBelow(rows, cursor);
  }

  // Reviews come and go between the pages. No row is shown twice and the order is kept throughout;
  // and once the last page is reached, every row that was there all the time was shown.
  lemma {:induction false} ChangingListIsRead(lists: seq<seq<Key>>, limit: nat, cursor: Option<Key>)
    requires limit > 0 && forall i | 0 <= i < |lists| :: Distinct(lists[i])
    ensures Descending(ReadOn(lists, limit, cursor)) && forall row | row in ReadOn(lists, limit, cursor) :: After(row, cursor)
    ensures Ends(lists, limit, cursor) ==>
      forall row | (forall i | 0 <= i < |lists| :: row in lists[i]) && After(row, cursor) :: row in ReadOn(lists, limit, cursor)
    decreases |lists|
  {
    hide Below, Ordered, Behind;
    if lists != [] {
      FoundIsAfter(lists[0], cursor);
      var found := Behind(Ordered(lists[0]), cursor);
      if |found| > limit {
        var last := found[limit - 1];
        ChangingListIsRead(lists[1..], limit, Some(last));
        var rest := ReadOn(lists[1..], limit, Some(last));
        JoinDescends(found, limit, rest);
        forall row | row in found[..limit] + rest ensures After(row, cursor) {
          if row in rest && cursor.Some? {
            assert last in found && After(last, cursor);
            BelowIsTransitive(row, last, cursor.value);
          } else if row !in rest { assert row in found; }
        }
        if Ends(lists, limit, cursor) {
          forall row | (forall i | 0 <= i < |lists| :: row in lists[i]) && After(row, cursor) ensures row in found[..limit] + rest {
            assert row in lists[0] && forall i | 0 <= i < |lists[1..]| :: row in lists[1..][i] by { assert forall i | 0 <= i < |lists[1..]| :: lists[1..][i] == lists[i + 1]; }
            LaterIsBelow(found, limit, row);
          }
        }
      } else {
        forall row | (forall i | 0 <= i < |lists| :: row in lists[i]) && After(row, cursor) ensures row in found { assert row in lists[0]; }
      }
    }
  }

  lemma LaterIsBelow(found: seq<Key>, limit: nat, row: Key)
    requires 0 < limit < |found| && Descending(found) && row in found
    ensures row in found[..limit] || Below(row, found[limit - 1])
  {
    var j :| 0 <= j < |found| && found[j] == row;
    if j < limit { assert found[..limit][j] == row; }
  }

  lemma JoinDescends(found: seq<Key>, limit: nat, rest: seq<Key>)
    requires 0 < limit < |found| && Descending(found) && Descending(rest)
    requires forall row | row in rest :: After(row, Some(found[limit - 1]))
    ensures Descending(found[..limit] + rest)
  {
    hide Below;
    var all := found[..limit] + rest;
    forall i, j | 0 <= i < j < |all| ensures Below(all[j], all[i]) {
      if j >= limit {
        var row := rest[j - limit];
        assert all[j] == row && row in rest && Below(row, found[limit - 1]);
        if i < limit - 1 { BelowIsTransitive(row, found[limit - 1], found[i]); } else if i >= limit { assert Below(rest[j - limit], rest[i - limit]); }
      }
    }
  }

  // The client: it follows the cursor that each page gave, over the list as it then is.
  method FollowThrough(lists: seq<seq<Key>>, limit: nat, cursor: Option<Key>, valid: Key -> bool) returns (all: seq<Key>)
    requires limit > 0
    requires forall i, key | 0 <= i < |lists| && key in lists[i] :: valid(key)
    ensures all == ReadOn(lists, limit, cursor)
    decreases |lists|
  {
    hide Ordered, Behind, EncodeCursor, DecodeCursor;
    if lists == [] { return []; }
    var page, next := ListReviews(lists[0], limit, cursor);
    if next.None? { return page; }
    ghost var found := Behind(Ordered(lists[0]), cursor);
    BehindStaysIn(lists[0], cursor, found[limit - 1]);
    CursorRoundTrip(found[limit - 1], valid);
    var rest := FollowThrough(lists[1..], limit, DecodeCursor(next.value, valid), valid);
    all := page + rest;
  }

  lemma BehindStaysIn(rows: seq<Key>, cursor: Option<Key>, key: Key)
    requires key in Behind(Ordered(rows), cursor)
    ensures key in rows
  {
    if cursor.None? { BehindNothing(Ordered(rows)); } else { BehindIsBelow(Ordered(rows), cursor.value); }
    OrderedKeeps(rows);
    assert key in multiset(Ordered(rows));
  }

  lemma {:induction false} OrderedKeeps(rows: seq<Key>)
    ensures multiset(Ordered(rows)) == multiset(rows)
  {
    if rows != [] {
      OrderedKeeps(rows[1..]);
      InsertedKeeps(Ordered(rows[1..]), rows[0]);
      assert rows == [rows[0]] + rows[1..];
    }
  }
}
