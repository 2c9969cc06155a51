/** The metadata scanner: `containsSecret` in `internal/server/secrets.go`.

    It answers whether some 43-character credential spelling occurs in a piece of request metadata,
    after undoing percent escapes one by one. Text is bytes, as Go strings are. The two classifiers
    (token provenance and bridge capability) are keyed by secrets and are a parameter here. */
module SecretScanner {
  import opened Frames

  const WINDOW_SIZE := 43
  const PERCENT: byte := 0x25

  /** Which 43-byte spellings are relay credentials: `ClassifyToken(x) != TokenExternal`, or a
      decodable capability that `MatchCapability` knows. */
  datatype Classifiers = Classifiers(token: Bytes -> bool, capability: Bytes -> bool)
  {
    predicate Accepts(candidate: Bytes) {
      token(candidate) || capability(candidate)
    }
  }

  predicate Base64Byte(value: byte) {
    || 0x61 <= value <= 0x7A
    || 0x41 <= value <= 0x5A
    || 0x30 <= value <= 0x39
    || value == 0x2D
    || value == 0x5F
  }

  // ---------------------------------------------------------- percent decoding

  predicate IsHex(value: byte) {
    0x30 <= value <= 0x39 || 0x41 <= value <= 0x46 || 0x61 <= value <= 0x66
  }

  function HexValue(value: byte): (n: nat)
    requires IsHex(value)
    ensures n < 16
  {
    if value <= 0x39 then value - 0x30 else if value <= 0x46 then value - 0x37 else value - 0x57
  }

  /** `text` begins with a well-formed escape (section 2.1 of RFC 3986). */
  predicate StartsWithEscape(text: Bytes) {
    |text| >= 3 && text[0] == PERCENT && IsHex(text[1]) && IsHex(text[2])
  }

  /** Left-to-right single decoding: well-formed escapes are replaced, malformed ones kept. */
  function Decoded(text: Bytes): Bytes {
    if text == [] then []
    else if StartsWithEscape(text) then [HexValue(text[1]) * 16 + HexValue(text[2])] + Decoded(text[3..])
    else [text[0]] + Decoded(text[1..])
  }

  lemma {:induction false} DecodedWithoutPercent(text: Bytes)
    requires PERCENT !in text
    ensures Decoded(text) == text
  {
    if text != [] {
      assert text[0] in text;
      DecodedWithoutPercent(text[1..]);
      assert text == [text[0]] + text[1..];
    }
  }

  /** Malformed escapes are kept as they are. */
  lemma {:induction false} MalformedIsKept(text: Bytes)
    requires forall i :: 0 <= i < |text| ==> !StartsWithEscape(text[i..])
    ensures Decoded(text) == text
  {
    if text != [] {
      assert text[0..] == text && !StartsWithEscape(text);
      forall i | 0 <= i < |text[1..]|
        ensures !StartsWithEscape(text[1..][i..])
      {
        assert text[1..][i..] == text[i + 1..];
      }
      MalformedIsKept(text[1..]);
      assert text == [text[0]] + text[1..];
    }
  }

  // ------------------------------------------------------------ the specification

  predicate AllBase64(text: Bytes, from: nat, to: nat)
    requires from <= to <= |text|
  {
    forall k :: from <= k < to ==> Base64Byte(text[k])
  }

  /** A credential occupies `text[at..at+43]`: base64url characters only (section 5 of RFC 4648). */
  ghost predicate SecretAt(text: Bytes, at: int, c: Classifiers) {
    0 <= at && at + WINDOW_SIZE <= |text|
    && AllBase64(text, at, at + WINDOW_SIZE)
    && c.Accepts(text[at..at + WINDOW_SIZE])
  }

  /** Some window of the decoded text is a credential. */
  ghost predicate HasSecret(text: Bytes, c: Classifiers) {
    exists at :: SecretAt(Decoded(text), at, c)
  }

  // ------------------------------------------- malformed escapes elsewhere do not hide

  /** `text` ends in the middle of an escape: a percent sign, perhaps with one hex digit. */
  predicate Dangling(text: Bytes) {
    var n := |text|;
    || (n >= 1 && text[n - 1] == PERCENT)
    || (n >= 2 && text[n - 2] == PERCENT && IsHex(text[n - 1]))
  }

  /** The escape `before` breaks off in is completed by the first bytes of `after`. */
  predicate Completes(before: Bytes, after: Bytes) {
    var n := |before|;
    || (n >= 1 && before[n - 1] == PERCENT && |after| >= 2 && IsHex(after[0]) && IsHex(after[1]))
    || (n >= 2 && before[n - 2] == PERCENT && IsHex(before[n - 1]) && |after| >= 1 && IsHex(after[0]))
  }

  lemma DecodedHead(text: Bytes)
    requires text != []
    ensures StartsWithEscape(text) ==>
      Decoded(text) == [HexValue(text[1]) * 16 + HexValue(text[2])] + Decoded(text[3..])
    ensures !StartsWithEscape(text) ==> Decoded(text) == [text[0]] + Decoded(text[1..])
  {
  }

  lemma SameHead(v: byte, joint: Bytes, a: Bytes, b: Bytes)
    ensures [v] + joint == ([v] + a) + b <==> joint == a + b
  {
    assert ([v] + a) + b == [v] + (a + b);
    assert ([v] + joint)[1..] == joint && ([v] + (a + b))[1..] == a + b;
  }

  /** Behind an escape, or a byte that begins none, the two texts meet as before. */
  lemma CompletesTail(a: Bytes, b: Bytes, size: nat)
    requires a != [] && (StartsWithEscape(a) || !StartsWithEscape(a + b)) && size == if StartsWithEscape(a) then 3
      else 1
    ensures Completes(a, b) <==> Completes(a[size..], b)
    ensures (a + b)[size..] == a[size..] + b && (StartsWithEscape(a + b) <==> StartsWithEscape(a))
    ensures (a + b)[0] == a[0] && (StartsWithEscape(a) ==> (a + b)[1] == a[1] && (a + b)[2] == a[2])
  {
    hide HexValue;
  }

  /** Decoding two texts side by side is decoding their concatenation, exactly when the second does
      not complete an escape that the first breaks off in. */
  lemma {:induction false} DecodedConcat(a: Bytes, b: Bytes)
    ensures Decoded(a + b) == Decoded(a) + Decoded(b) <==> !Completes(a, b)
    decreases |a|
  {
    if a == [] {
      assert a + b == b && Decoded(a) == [];
      assert [] + Decoded(b) == Decoded(b);
    } else if StartsWithEscape(a) || !StartsWithEscape(a + b) {
      hide Decoded, Completes;
      var size := if StartsWithEscape(a) then 3 else 1;
      CompletesTail(a, b, size);
      DecodedHead(a);
      DecodedHead(a + b);
      var v: byte := if StartsWithEscape(a) then HexValue(a[1]) * 16 + HexValue(a[2]) else a[0];
      SameHead(v, Decoded(a[size..] + b), Decoded(a[size..]), Decoded(b));
      DecodedConcat(a[size..], b);
    } else {
      SwallowedEscape(a, b);
    }
  }

  /** An escape that straddles the boundary: the joint decoding is shorter than the two parts. */
  lemma SwallowedEscape(a: Bytes, b: Bytes)
    requires a != [] && !StartsWithEscape(a) && StartsWithEscape(a + b)
    ensures Completes(a, b) && Decoded(a + b) != Decoded(a) + Decoded(b)
  {
    assert |a| <= 2 && a[0] == PERCENT;
    if |a| == 1 {
      assert (a + b)[3..] == b[2..];
      assert b[1..][1..] == b[2..];
      assert Decoded(b) == [b[0]] + Decoded(b[1..]);
      assert Decoded(b[1..]) == [b[1]] + Decoded(b[2..]);
      assert Decoded(a) == [PERCENT] + Decoded(a[1..]);
    } else {
      assert b[0] == (a + b)[2] && a[1] == (a + b)[1];
      assert (a + b)[3..] == b[1..];
      assert Decoded(b) == [b[0]] + Decoded(b[1..]);
      assert a[1..][1..] == [];
      assert Decoded(a[1..]) == [a[1]] + Decoded([]);
      assert Decoded(a) == [PERCENT] + Decoded(a[1..]);
    }
  }

  lemma {:induction false} DanglingKeepsPercent(text: Bytes)
    ensures Dangling(text) ==> PERCENT in Decoded(text)
    decreases |text|
  {
    if StartsWithEscape(text) {
      DanglingKeepsPercent(text[3..]);
    } else if text != [] && text[0] != PERCENT {
      DanglingKeepsPercent(text[1..]);
    }
  }

  lemma DanglingCompletes(before: Bytes, after: Bytes)
    ensures Completes(before, after) ==> Dangling(before)
  {
  }

  /** A credential is found wherever it stands and however its characters are escaped, whatever
      surrounds it, unless the text before it breaks off in an escape that the credential's own
      first characters complete. */
  lemma EmbeddedSecretFound(before: Bytes, spelling: Bytes, after: Bytes, c: Classifiers)
    requires SecretAt(Decoded(spelling), 0, c) && |Decoded(spelling)| == WINDOW_SIZE
    requires !Completes(before, spelling + after)
    ensures HasSecret(before + spelling + after, c)
  {
    hide Decoded, Completes, Dangling, IsHex, Classifiers.Accepts;
    var w := Decoded(spelling);
    DanglingKeepsPercent(spelling);
    assert PERCENT !in w && !Dangling(spelling);
    DanglingCompletes(spelling, after);
    DecodedConcat(spelling, after);
    DecodedConcat(before, spelling + after);
    assert before + spelling + after == before + (spelling + after);
    var all := Decoded(before + spelling + after);
    var at := |Decoded(before)|;
    assert all == Decoded(before) + (w + Decoded(after));
    assert all[at..at + WINDOW_SIZE] == w == w[0..WINDOW_SIZE];
    forall k | at <= k < at + WINDOW_SIZE
      ensures Base64Byte(all[k])
    {
      assert all[k] == w[k - at];
    }
    assert SecretAt(all, at, c);
  }

  // --------------------------------------------------------------- every way to spell it

  function Ascii(text: string): (bytes: Bytes)
    requires forall i :: 0 <= i < |text| ==> text[i] < '\U{0080}'
    ensures |bytes| == |text|
  {
    seq(|text|, i requires 0 <= i < |text| => text[i] as int)
  }

  const LOWER_DIGITS := "0123456789abcdef"
  const UPPER_DIGITS := "0123456789ABCDEF"

  /** The hex digit for a value, in either case. */
  function Digit(value: nat, upper: bool): byte
    requires value < 16
  {
    Ascii(if upper then UPPER_DIGITS else LOWER_DIGITS)[value]
  }

  /** The digits read back as what they were printed for, and nothing else is a hex digit. */
  lemma DigitIsRead(value: nat, upper: bool)
    requires value < 16
    ensures IsHex(Digit(value, upper)) && HexValue(Digit(value, upper)) == value
  {
    assert Digit(value, upper) == if value < 10 then 0x30 + value else if upper then 0x41 + (value - 10)
      else 0x61 + (value - 10);
  }

  lemma HexDigits(v: byte)
    ensures IsHex(v) <==> v in Ascii(LOWER_DIGITS) + Ascii(UPPER_DIGITS)
  {
    if IsHex(v) {
      DigitIsRead(HexValue(v), v <= 0x46);
      var n := HexValue(v);
      assert v == (if 0x41 <= v <= 0x46 then Ascii(UPPER_DIGITS)[n] else Ascii(LOWER_DIGITS)[n]);
    } else if v in Ascii(LOWER_DIGITS) {
      var n :| 0 <= n < 16 && Ascii(LOWER_DIGITS)[n] == v;
      DigitIsRead(n, false);
      assert false;
    } else if v in Ascii(UPPER_DIGITS) {
      var n :| 0 <= n < 16 && Ascii(UPPER_DIGITS)[n] == v;
      DigitIsRead(n, true);
      assert false;
    }
  }

  /** How one character is spelled: as it is, or as an escape with digits of either case. */
  datatype Spelling = Plain | Escape(upperHigh: bool, upperLow: bool)

  function Spelled(v: byte, how: Spelling): Bytes {
    match how
    case Plain => [v]
    case Escape(high, low) => [PERCENT, Digit(v / 16, high), Digit(v % 16, low)]
  }

  function Escaped(text: Bytes, how: seq<Spelling>): Bytes
    requires |how| == |text|
  {
    if text == [] then [] else Spelled(text[0], how[0]) + Escaped(text[1..], how[1..])
  }

  /** One escape stands for the byte it was printed for. */
  lemma EscapeIsRead(v: byte, high: bool, low: bool, rest: Bytes)
    ensures Decoded(Spelled(v, Escape(high, low)) + rest) == [v] + Decoded(rest)
  {
    var text := Spelled(v, Escape(high, low)) + rest;
    DigitIsRead(v / 16, high);
    DigitIsRead(v % 16, low);
    hide Decoded, Digit;
    DecodedHead(text);
    assert text[3..] == rest;
  }

  /** Decoding undoes every escaping: any characters, with digits of any case, as long as percent signs are
      among those escaped. */
  lemma {:induction false} DecodedEscaped(text: Bytes, how: seq<Spelling>)
    requires |how| == |text| && forall i :: 0 <= i < |text| && text[i] == PERCENT ==> how[i].Escape?
    ensures Decoded(Escaped(text, how)) == text
  {
    if text != [] {
      var spelling, rest := Spelled(text[0], how[0]), Escaped(text[1..], how[1..]);
      DecodedEscaped(text[1..], how[1..]);
      if how[0].Escape? {
        EscapeIsRead(text[0], how[0].upperHigh, how[0].upperLow, rest);
      } else {
        assert (spelling + rest)[0] == text[0] != PERCENT && (spelling + rest)[1..] == rest;
      }
      assert text == [text[0]] + text[1..];
    }
  }

  const CAPITALS := "ABCDEFGHIJKLMNOPQRSTUVWXYZ"
  const SMALL := "abcdefghijklmnopqrstuvwxyz"
  const DECIMALS := "0123456789"

  /** A table of consecutive characters holds a range. */
  lemma TableIsRange(table: string, first: char, v: byte)
    requires |table| <= 26 && forall i :: 0 <= i < |table| ==>
      table[i] < '\U{0080}' && table[i] as int == first as int + i
    ensures v in Ascii(table) <==> first as int <= v < first as int + |table|
  {
    if first as int <= v < first as int + |table| {
      assert Ascii(table)[v - first as int] == v;
    }
  }

  /** The characters of credentials, and no others. */
  lemma Base64Table(v: byte)
    ensures Base64Byte(v) <==> v in Ascii(CAPITALS) || v in Ascii(SMALL) || v in Ascii(DECIMALS) || v in Ascii("-_")
  {
    TableIsRange(CAPITALS, 'A', v);
    TableIsRange(SMALL, 'a', v);
    TableIsRange(DECIMALS, '0', v);
    var others := Ascii("-_");
    assert others == [0x2D, 0x5F];
  }

  /** A credential is found however its characters are escaped and whatever surrounds it, unless its first
      characters, unescaped, complete an escape that the text before it breaks off in. */
  lemma EscapedSecretFound(before: Bytes, secret: Bytes, how: seq<Spelling>, after: Bytes, c: Classifiers)
    requires |secret| == |how| == WINDOW_SIZE && AllBase64(secret, 0, WINDOW_SIZE) && c.Accepts(secret)
    ensures Completes(before, Escaped(secret, how) + after) || HasSecret(before + Escaped(secret, how) + after, c)
    ensures how[0].Escape? ==> HasSecret(before + Escaped(secret, how) + after, c)
  {
    DecodedEscaped(secret, how);
    assert secret[0..WINDOW_SIZE] == secret;
    var spelling := Escaped(secret, how);
    assert SecretAt(Decoded(spelling), 0, c);
    if how[0].Escape? {
      assert (spelling + after)[0] == PERCENT;
    }
    if !Completes(before, spelling + after) {
      EmbeddedSecretFound(before, spelling, after, c);
    }
  }

  /** Where the escape begins that `before` breaks off in and `after` completes. */
  function EscapeAt(before: Bytes, after: Bytes): nat
    requires Completes(before, after)
  {
    if before[|before| - 1] == PERCENT then |before| - 1 else |before| - 2
  }

  /** How many bytes of `after` belong to that escape. */
  function Swallows(before: Bytes, after: Bytes): (n: nat)
    requires Completes(before, after)
    ensures 1 <= n <= 2 && n <= |after|
  {
    if before[|before| - 1] == PERCENT then 2 else 1
  }

  /** What that escape stands for. */
  function EscapeValue(before: Bytes, after: Bytes): byte
    requires Completes(before, after)
  {
    if before[|before| - 1] == PERCENT then HexValue(after[0]) * 16 + HexValue(after[1])
    else HexValue(before[|before| - 1]) * 16 + HexValue(after[0])
  }

  /** The two texts decoded around the escape that straddles them. */
  function DecodedAround(before: Bytes, after: Bytes): Bytes
    requires Completes(before, after)
  {
    Decoded(before[..EscapeAt(before, after)]) + [EscapeValue(before, after)]
      + Decoded(after[Swallows(before, after)..])
  }

  lemma EscapeStands(before: Bytes, after: Bytes)
    requires Completes(before, after)
    ensures var tail := before[EscapeAt(before, after)..] + after;
      && StartsWithEscape(tail) && tail[3..] == after[Swallows(before, after)..]
      && HexValue(tail[1]) * 16 + HexValue(tail[2]) == EscapeValue(before, after)
      && !Completes(before[..EscapeAt(before, after)], tail)
  {
  }

  lemma StraddlingEscape(before: Bytes, after: Bytes)
    requires Completes(before, after)
    ensures Decoded(before + after) == DecodedAround(before, after)
  {
    hide Decoded, StartsWithEscape, Completes, EscapeAt, Swallows, EscapeValue;
    var k, m := EscapeAt(before, after), Swallows(before, after);
    EscapeStands(before, after);
    EscapeWithin(before, after);
    var tail := before[k..] + after;
    assert before + after == before[..k] + tail;
    DecodedConcat(before[..k], tail);
    DecodedHead(tail);
    assert Decoded(before[..k]) + ([EscapeValue(before, after)] + Decoded(after[m..])) == DecodedAround(before, after);
  }

  lemma EscapeWithin(before: Bytes, after: Bytes)
    requires Completes(before, after)
    ensures EscapeAt(before, after) <= |before| && 3 <= |before[EscapeAt(before, after)..] + after|
  {
  }

  /** Exactly when a credential is missed: its first characters complete an escape that the text before it
      breaks off in, and around that escape, of one percent sign or with one hex digit, no window of the
      text is a credential. */
  lemma EmbeddedSecretMissed(before: Bytes, spelling: Bytes, after: Bytes, c: Classifiers)
    requires SecretAt(Decoded(spelling), 0, c) && |Decoded(spelling)| == WINDOW_SIZE
    ensures !HasSecret(before + spelling + after, c) <==>
      Completes(before, spelling + after) && forall at :: !SecretAt(DecodedAround(before, spelling + after), at, c)
  {
    hide Decoded, Completes, SecretAt;
    if Completes(before, spelling + after) {
      StraddlingEscape(before, spelling + after);
      assert before + spelling + after == before + (spelling + after);
    } else {
      EmbeddedSecretFound(before, spelling, after, c);
    }
  }

  /** The exception is real, both ways. After a percent sign, a credential that begins with two hex digits
      loses them to the escape and goes unseen; after a percent sign and a hex digit, one that begins with
      a hex digit loses it, and is seen only if the character the escape stands for happens to make
      another credential of the rest. */
  lemma DanglingEscapeHidesSecret(c: Classifiers, secret: Bytes, digit: byte)
    requires |secret| == WINDOW_SIZE && AllBase64(secret, 0, WINDOW_SIZE) && c.Accepts(secret)
    requires IsHex(secret[0]) && IsHex(digit)
    ensures HasSecret(secret, c)
    ensures IsHex(secret[1]) ==> !HasSecret([PERCENT] + secret, c)
    ensures var v := HexValue(digit) * 16 + HexValue(secret[0]);
      HasSecret([PERCENT, digit] + secret, c) <==> Base64Byte(v) && c.Accepts([v] + secret[1..])
  {
    assert PERCENT !in secret;
    DecodedWithoutPercent(secret);
    assert secret[0..WINDOW_SIZE] == secret;
    assert SecretAt(Decoded(secret), 0, c);
    NoSecretAfterPercent(c, secret);
    OtherSecretAfterDigit(c, secret, digit);
  }

  lemma NoSecretAfterPercent(c: Classifiers, secret: Bytes)
    requires |secret| == WINDOW_SIZE && PERCENT !in secret && IsHex(secret[0])
    ensures IsHex(secret[1]) ==> !HasSecret([PERCENT] + secret, c)
  {
    if IsHex(secret[1]) {
      var text := [PERCENT] + secret;
      assert text[3..] == secret[2..];
      DecodedWithoutPercent(secret[2..]);
      assert |Decoded(text)| == 1 + (WINDOW_SIZE - 2);
    }
  }

  lemma OtherSecretAfterDigit(c: Classifiers, secret: Bytes, digit: byte)
    requires |secret| == WINDOW_SIZE && PERCENT !in secret && AllBase64(secret, 0, WINDOW_SIZE)
    requires IsHex(secret[0]) && IsHex(digit)
    ensures var v := HexValue(digit) * 16 + HexValue(secret[0]);
      HasSecret([PERCENT, digit] + secret, c) <==> Base64Byte(v) && c.Accepts([v] + secret[1..])
  {
    var v: byte := HexValue(digit) * 16 + HexValue(secret[0]);
    var text := [PERCENT, digit] + secret;
    assert text[3..] == secret[1..];
    DecodedWithoutPercent(secret[1..]);
    DecodedHead(text);
    var all := [v] + secret[1..];
    assert Decoded(text) == all && |all| == WINDOW_SIZE;
    assert all[0..WINDOW_SIZE] == all;
    hide Decoded;
    assert forall k :: 1 <= k < WINDOW_SIZE ==> all[k] == secret[k];
    assert AllBase64(all, 0, WINDOW_SIZE) <==> Base64Byte(all[0]);
    assert SecretAt(all, 0, c) <==> Base64Byte(v) && c.Accepts(all);
    assert forall at :: SecretAt(all, at, c) ==> at == 0;
    assert HasSecret(text, c) <==> SecretAt(all, 0, c);
  }

  // ------------------------------------------------------------ the program's loops

  method DecodeEscapes(text: Bytes) returns (decoded: Bytes)
    ensures decoded == Decoded(text)
  {
    decoded := [];
    var i := 0;
    assert Decoded([]) == [];
    hide Decoded;
    while i < |text|
      invariant 0 <= i <= |text|
      invariant Decoded(text) == decoded + Decoded(text[i..])
    {
      ghost var rest := text[i..];
      DecodedHead(rest);
      if text[i] == PERCENT && i + 2 < |text| && IsHex(text[i + 1]) && IsHex(text[i + 2]) {
        assert StartsWithEscape(rest) && rest[3..] == text[i + 3..];
        var value := HexValue(text[i + 1]) * 16 + HexValue(text[i + 2]);
        assert decoded + ([value] + Decoded(rest[3..])) == (decoded + [value]) + Decoded(rest[3..]);
        decoded := decoded + [value];
        i := i + 3;
      } else {
        assert !StartsWithEscape(rest) && rest[1..] == text[i + 1..];
        assert decoded + ([text[i]] + Decoded(rest[1..])) == (decoded + [text[i]]) + Decoded(rest[1..]);
        decoded := decoded + [text[i]];
        i := i + 1;
      }
    }
  }

  /** `containsSecret` answers exactly whether the decoded text holds a credential: no window is
      skipped at a boundary, and nothing that is not a window is ever classified. */
  method ContainsSecret(original: Bytes, c: Classifiers) returns (found: bool)
    ensures found <==> HasSecret(original, c)
  {
    var text := original;
    if PERCENT in text {
      text := DecodeEscapes(text);
    } else {
      DecodedWithoutPercent(text);
    }
    hide Decoded, Completes;
    var start := 0;
    var i := 0;
    while i <= |text|
      invariant 0 <= start <= i <= |text| + 1
      invariant start <= |text| ==> i <= |text| && AllBase64(text, start, i)
      invariant start > |text| ==> i == |text| + 1
      invariant forall at :: 0 <= at < start ==> !SecretAt(text, at, c)
    {
      if i < |text| && Base64Byte(text[i]) {
        i := i + 1;
        continue;
      }
      while start + WINDOW_SIZE <= i
        invariant 0 <= start <= i
        invariant AllBase64(text, start, i)
        invariant forall at :: 0 <= at < start ==> !SecretAt(text, at, c)
      {
        var candidate := text[start..start + WINDOW_SIZE];
        if c.token(candidate) {
          assert SecretAt(text, start, c);
          return true;
        }
        if c.capability(candidate) {
          assert SecretAt(text, start, c);
          return true;
        }
        start := start + 1;
      }
      forall at | start <= at <= i
        ensures !SecretAt(text, at, c)
      {
        if at + WINDOW_SIZE <= |text| && i < |text| {
          assert at <= i < at + WINDOW_SIZE && !Base64Byte(text[i]);
        }
      }
      start := i + 1;
      i := i + 1;
    }
    return false;
  }
}
