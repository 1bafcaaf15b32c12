/**
  The string encodings: the key a source id is hashed from, and the handle of a search hit.
*/
module SharedKeys {
  import opened Options

  // ---------------------------------------------------------------------------
  // Source keys
  // ---------------------------------------------------------------------------

  // `s.replace(c, other)` for a single character.
  function Replace(s: string, c: char, other: string): string {
    if s == "" then "" else (if s[0] == c then other else [s[0]]) + Replace(s[1..], c, other)
  }

  // `_escape_key_part`
  function EscapeKeyPart(part: string): string {
    Replace(Replace(part, '\\', "\\\\"), '|', "\\|")
  }

  // `"|".join(...)` of the escaped parts.
  function JoinedKey(parts: seq<string>): string {
    if parts == [] then ""
    else if |parts| == 1 then EscapeKeyPart(parts[0])
    else EscapeKeyPart(parts[0]) + "|" + JoinedKey(parts[1..])
  }

  /** The key `make_source_id` hashes. */
  function SourceKey(parts: seq<string>): string {
    if JoinedKey(parts) == "" then "anonymous" else JoinedKey(parts)
  }

  // Both replacements at once.
  function EscapedChar(c: char): string {
    if c == '\\' then "\\\\" else if c == '|' then "\\|" else [c]
  }

  function Escaped(part: string): string {
    if part == "" then "" else EscapedChar(part[0]) + Escaped(part[1..])
  }

  lemma {:induction false} ReplaceOfConcat(a: string, b: string, c: char, other: string)
    ensures Replace(a + b, c, other) == Replace(a, c, other) + Replace(b, c, other)
  {
    if a == "" {
      assert a + b == b;
    } else {
      assert (a + b)[1..] == a[1..] + b;
      ReplaceOfConcat(a[1..], b, c, other);
    }
  }

  lemma {:induction false} EscapeIsEscaped(part: string)
    ensures EscapeKeyPart(part) == Escaped(part)
  {
    if part != "" {
      var first := if part[0] == '\\' then "\\\\" else [part[0]];
      ReplaceOfConcat(first, Replace(part[1..], '\\', "\\\\"), '|', "\\|");
      EscapeIsEscaped(part[1..]);
      if part[0] == '\\' {
        assert "\\\\"[1..] == "\\";
      }
      assert Replace(first, '|', "\\|") == if part[0] == '|' then "\\|" else first by {
        assert first[1..] == if part[0] == '\\' then "\\" else "";
        assert "\\"[1..] == "";
      }
    }
  }

  function Prepend(s: string, parts: seq<string>): seq<string>
    requires parts != []
  {
    [s + parts[0]] + parts[1..]
  }

  // Reads a key back: a backslash protects the character behind it.
  function Parse(key: string): (parts: seq<string>)
    ensures parts != []
    decreases |key|
  {
    if key == "" then [""]
    else if key[0] == '|' then [""] + Parse(key[1..])
    else if key[0] == '\\' && |key| >= 2 then Prepend([key[1]], Parse(key[2..]))
    else Prepend([key[0]], Parse(key[1..]))
  }

  lemma ParseChar(c: char, tail: string)
    ensures Parse(EscapedChar(c) + tail) == Prepend([c], Parse(tail))
  {
    var key := EscapedChar(c) + tail;
    if c == '\\' || c == '|' {
      assert key == ['\\', c] + tail;
      assert key[2..] == tail;
    } else {
      assert key[1..] == tail;
    }
  }

  lemma PrependTwice(a: string, b: string, parts: seq<string>)
    requires parts != []
    ensures Prepend(a, Prepend(b, parts)) == Prepend(a + b, parts)
  {
    assert a + (b + parts[0]) == a + b + parts[0];
  }

  lemma {:induction false} ParseEscaped(part: string, rest: string)
    ensures Parse(Escaped(part) + rest) == Prepend(part, Parse(rest))
  {
    if part == "" {
      assert Escaped(part) + rest == rest;
      assert "" + Parse(rest)[0] == Parse(rest)[0];
    } else {
      var tail := Escaped(part[1..]) + rest;
      ParseEscaped(part[1..], rest);
      ParseChar(part[0], tail);
      assert Escaped(part) + rest == EscapedChar(part[0]) + tail;
      PrependTwice([part[0]], part[1..], Parse(rest));
      assert [part[0]] + part[1..] == part;
    }
  }

  /** The joined key of a non-empty list of parts reads back as that list. */
  lemma {:induction false} JoinedKeyReadsBack(parts: seq<string>)
    requires parts != []
    ensures Parse(JoinedKey(parts)) == parts
  {
    EscapeIsEscaped(parts[0]);
    if |parts| == 1 {
      ParseEscaped(parts[0], "");
      assert Escaped(parts[0]) + "" == Escaped(parts[0]);
      assert parts[0] + "" == parts[0];
    } else {
      var rest := "|" + JoinedKey(parts[1..]);
      JoinedKeyReadsBack(parts[1..]);
      assert rest[1..] == JoinedKey(parts[1..]);
      ParseEscaped(parts[0], rest);
      assert Escaped(parts[0]) + "|" + JoinedKey(parts[1..]) == Escaped(parts[0]) + rest;
      assert parts[0] + "" == parts[0];
    }
  }

  // The lists whose key is the fallback.
  predicate Anonymous(parts: seq<string>) {
    parts == [] || parts == [""] || parts == ["anonymous"]
  }

  lemma SameKey(parts: seq<string>, part: string)
    requires parts != []
    ensures JoinedKey(parts) == JoinedKey([part]) <==> parts == [part]
  {
    JoinedKeyReadsBack(parts);
    JoinedKeyReadsBack([part]);
  }

  lemma FallbackKey(parts: seq<string>)
    ensures JoinedKey(parts) == "" <==> parts == [] || parts == [""]
    ensures JoinedKey(parts) == "anonymous" <==> parts == ["anonymous"]
  {
    PlainEscape("anonymous");
    assert JoinedKey(["anonymous"]) == "anonymous";
    assert JoinedKey([""]) == "";
    if parts != [] {
      SameKey(parts, "anonymous");
      SameKey(parts, "");
    }
  }

  /** Two lists of parts have one key exactly when they are the same, or both fall back to the
      anonymous key. */
  lemma SourceKeyInjective(a: seq<string>, b: seq<string>)
    ensures SourceKey(a) == SourceKey(b) <==> a == b || (Anonymous(a) && Anonymous(b))
  {
    FallbackKey(a);
    FallbackKey(b);
    if a != [] {
      JoinedKeyReadsBack(a);
    }
    if b != [] {
      JoinedKeyReadsBack(b);
    }
  }

  function PlainJoin(parts: seq<string>): string {
    if parts == [] then "" else if |parts| == 1 then parts[0] else parts[0] + "|" + PlainJoin(parts[1..])
  }

  predicate Plain(part: string) {
    forall i :: 0 <= i < |part| ==> part[i] != '\\' && part[i] != '|'
  }

  lemma {:induction false} PlainReplace(part: string, c: char, other: string)
    requires forall i :: 0 <= i < |part| ==> part[i] != c
    ensures Replace(part, c, other) == part
  {
    if part != "" {
      PlainReplace(part[1..], c, other);
      assert part == [part[0]] + part[1..];
    }
  }

  lemma PlainEscape(part: string)
    requires Plain(part)
    ensures EscapeKeyPart(part) == part
  {
    PlainReplace(part, '\\', "\\\\");
    PlainReplace(part, '|', "\\|");
  }

  /** Parts without a separator or a backslash keep the key they had before escaping. */
  lemma {:induction false} PlainKeysUnchanged(parts: seq<string>)
    requires forall i :: 0 <= i < |parts| ==> Plain(parts[i])
    ensures JoinedKey(parts) == PlainJoin(parts)
  {
    if parts != [] {
      PlainEscape(parts[0]);
      PlainKeysUnchanged(parts[1..]);
    }
  }

  // ---------------------------------------------------------------------------
  // Hit handles
  // ---------------------------------------------------------------------------

  predicate IsDigit(c: char) { '0' <= c <= '9' }

  function Digits(n: nat): (s: string)
    ensures s != "" && AllDigits(s)
  {
    var digit := ['0' + (n % 10) as char];
    if n < 10 then digit else Digits(n / 10) + digit
  }

  function Decimal(i: int): string {
    if i < 0 then "-" + Digits(-i) else Digits(i)
  }

  predicate AllDigits(s: string) {
    forall i :: 0 <= i < |s| ==> IsDigit(s[i])
  }

  function ParseDigits(s: string): int
    requires AllDigits(s)
  {
    if s == "" then 0
    else
      assert IsDigit(s[|s| - 1]);
      ParseDigits(s[..|s| - 1]) * 10 + (s[|s| - 1] as int - '0' as int)
  }

  // `int(s)` on ASCII digits with an optional sign.
  function ParseInt(s: string): Option<int> {
    var digits := if s != "" && (s[0] == '-' || s[0] == '+') then s[1..] else s;
    if digits == "" || !AllDigits(digits) then None
    else if s[0] == '-' then Some(-ParseDigits(digits))
    else Some(ParseDigits(digits))
  }

  lemma {:induction false} DigitsReadBack(n: nat)
    ensures ParseDigits(Digits(n)) == n
  {
    var digit := '0' + (n % 10) as char;
    if n < 10 {
      assert Digits(n)[..0] == "";
    } else {
      DigitsReadBack(n / 10);
      assert Digits(n) == Digits(n / 10) + [digit];
      assert Digits(n)[..|Digits(n)| - 1] == Digits(n / 10);
    }
  }

  lemma DecimalReadsBack(i: int)
    ensures ParseInt(Decimal(i)) == Some(i)
  {
    DigitsReadBack(if i < 0 then -i else i);
    if i < 0 {
      assert Decimal(i)[1..] == Digits(-i);
    }
  }

  // `make_hit_id`
  function MakeHitId(path: string, start: int, end: int): string {
    path + ":" + Decimal(start) + "-" + Decimal(end)
  }

  // The position of the last `c`, and of the first.
  function LastIndex(s: string, c: char): (k: int)
    ensures -1 <= k < |s|
    ensures k >= 0 ==> s[k] == c
    ensures forall i :: k < i < |s| ==> s[i] != c
  {
    if s == "" then -1 else if s[|s| - 1] == c then |s| - 1 else LastIndex(s[..|s| - 1], c)
  }

  function FirstIndex(s: string, c: char): (k: nat)
    ensures k <= |s|
    ensures k < |s| ==> s[k] == c
    ensures forall i :: 0 <= i < k ==> s[i] != c
  {
    if s == "" || s[0] == c then 0 else FirstIndex(s[1..], c) + 1
  }

  // `parse_hit_id`: split at the last colon, then at the first dash behind it.
  function ParseHitId(id: string): Option<(string, int, int)> {
    var colon := LastIndex(id, ':');
    if colon < 0 then None
    else
      var span := id[colon + 1..];
      var dash := FirstIndex(span, '-');
      if dash == |span| then None
      else
        var lo, hi := ParseInt(span[..dash]), ParseInt(span[dash + 1..]);
        if lo.None? || hi.None? then None else Some((id[..colon], lo.value, hi.value))
  }

  lemma DecimalChars(i: int)
    ensures forall k :: 0 <= k < |Decimal(i)| ==> Decimal(i)[k] != ':'
    ensures i >= 0 ==> forall k :: 0 <= k < |Decimal(i)| ==> Decimal(i)[k] != '-'
    ensures i < 0 ==> Decimal(i)[0] == '-'
  {
    var digits := Digits(if i < 0 then -i else i);
    assert forall k :: 0 <= k < |digits| ==> IsDigit(digits[k]);
  }

  lemma {:induction false} SplitLast(a: string, c: char, b: string)
    requires forall i :: 0 <= i < |b| ==> b[i] != c
    ensures LastIndex(a + [c] + b, c) == |a|
  {
    var s := a + [c] + b;
    if b == "" {
      assert s[|s| - 1] == c;
    } else {
      assert s[|s| - 1] == b[|b| - 1];
      assert s[..|s| - 1] == a + [c] + b[..|b| - 1];
      SplitLast(a, c, b[..|b| - 1]);
    }
  }

  lemma Sides(a: string, c: char, b: string)
    ensures (a + [c] + b)[..|a|] == a && (a + [c] + b)[|a| + 1..] == b
  {
  }

  lemma {:induction false} SplitFirst(a: string, c: char, b: string)
    requires forall i :: 0 <= i < |a| ==> a[i] != c
    ensures FirstIndex(a + [c] + b, c) == |a|
  {
    if a != "" {
      assert (a + [c] + b)[1..] == a[1..] + [c] + b;
      SplitFirst(a[1..], c, b);
    }
  }

  // A handle whose span has no colon, and whose first number has no dash.
  lemma ParseParts(path: string, lo: string, hi: string)
    requires forall i :: 0 <= i < |lo| ==> lo[i] != '-' && lo[i] != ':'
    requires forall i :: 0 <= i < |hi| ==> hi[i] != ':'
    ensures ParseHitId(path + [':'] + (lo + ['-'] + hi)) ==
            if ParseInt(lo).None? || ParseInt(hi).None? then None
            else Some((path, ParseInt(lo).value, ParseInt(hi).value))
  {
    var span := lo + ['-'] + hi;
    SplitLast(path, ':', span);
    Sides(path, ':', span);
    SplitFirst(lo, '-', hi);
    Sides(lo, '-', hi);
  }

  lemma ParseMade(path: string, lo: string, hi: string, start: int, end: int)
    requires forall i :: 0 <= i < |lo| ==> lo[i] != ':'
    requires forall i :: 0 <= i < |hi| ==> hi[i] != ':'
    requires ParseInt(lo) == Some(start) && ParseInt(hi) == Some(end)
    ensures (forall i :: 0 <= i < |lo| ==> lo[i] != '-') ==>
      ParseHitId(path + ":" + lo + "-" + hi) == Some((path, start, end))
    ensures lo != "" && lo[0] == '-' ==> ParseHitId(path + ":" + lo + "-" + hi) == None
  {
    MadeParts(path, lo, hi);
    if forall i :: 0 <= i < |lo| ==> lo[i] != '-' {
      ParseParts(path, lo, hi);
    }
    if lo != "" && lo[0] == '-' {
      ParseParts(path, "", lo[1..] + "-" + hi);
    }
  }

  lemma MadeParts(path: string, lo: string, hi: string)
    ensures path + ":" + lo + "-" + hi == path + [':'] + (lo + ['-'] + hi)
    ensures lo != "" && lo[0] == '-' ==>
              path + ":" + lo + "-" + hi == path + [':'] + ("" + ['-'] + (lo[1..] + "-" + hi))
  {
  }

  /** A handle reads back as what it was made from, for every path and every end line, exactly
      when its start line is not negative; otherwise it does not read at all. */
  lemma HitIdRoundTrip(path: string, start: int, end: int)
    ensures ParseHitId(MakeHitId(path, start, end)) == if start >= 0 then Some((path, start, end)) else None
  {
    DecimalChars(start);
    DecimalChars(end);
    DecimalReadsBack(start);
    DecimalReadsBack(end);
    ParseMade(path, Decimal(start), Decimal(end), start, end);
  }
}
