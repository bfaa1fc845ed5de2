/**
 * A model of the browser's URLSearchParams as the resources page uses it:
 * `set` on a fresh object, `toString`, parsing a query string, and `get`.
 * Serialisation is application/x-www-form-urlencoded: ASCII letters, digits
 * and `*-._` stay, a space becomes `+`, every other ASCII character becomes
 * `%` and two upper-case hex digits. Characters beyond ASCII are kept as they
 * are (the browser would percent-encode their UTF-8 bytes).
 */
module UrlParams {
  import opened Wrappers
  import opened Strings

  /** A parameter list, in insertion order. */
  type Params = seq<(string, string)>

  predicate IsSafe(c: char) {
    ('a' <= c <= 'z') || ('A' <= c <= 'Z') || ('0' <= c <= '9') || c == '*' || c == '-' || c == '.' || c == '_'
  }

  const HexDigits: string := "0123456789ABCDEF"

  predicate IsHex(c: char) {
    ('0' <= c <= '9') || ('A' <= c <= 'F') || ('a' <= c <= 'f')
  }

  function HexValue(c: char): (v: int)
    requires IsHex(c)
    ensures 0 <= v < 16
  {
    if '0' <= c <= '9' then c as int - '0' as int
    else if 'A' <= c <= 'F' then c as int - 'A' as int + 10
    else c as int - 'a' as int + 10
  }

  /** Every hex digit the serialiser writes reads back as its value. */
  lemma HexDigitValue(n: int)
    requires 0 <= n < 16
    ensures IsHex(HexDigits[n]) && HexValue(HexDigits[n]) == n
  {
  }

  function EncodeChar(c: char): string {
    if IsSafe(c) then [c]
    else if c == ' ' then "+"
    else if (c as int) < 128 then ['%', HexDigits[c as int / 16], HexDigits[c as int % 16]]
    else [c]
  }

  function Encode(s: string): string {
    if s == [] then [] else EncodeChar(s[0]) + Encode(s[1..])
  }

  /** Decoding: `+` is a space, `%` with two hex digits is that character, anything else stays. */
  function Decode(s: string): string
    decreases |s|
  {
    if s == [] then []
    else if s[0] == '%' && |s| >= 3 && IsHex(s[1]) && IsHex(s[2]) then
      [(16 * HexValue(s[1]) + HexValue(s[2])) as char] + Decode(s[3..])
    else if s[0] == '+' then [' '] + Decode(s[1..])
    else [s[0]] + Decode(s[1..])
  }

  /** The characters a serialised string may contain. */
  predicate Encoded(c: char) {
    IsSafe(c) || c == '+' || c == '%' || c as int >= 128
  }

  lemma EncodeCharOutput(c: char)
    ensures forall k :: 0 <= k < |EncodeChar(c)| ==> Encoded(EncodeChar(c)[k])
  {
    if !IsSafe(c) && c != ' ' && (c as int) < 128 {
      HexDigitValue(c as int / 16);
      HexDigitValue(c as int % 16);
    }
  }

  /** A serialised string holds only safe characters, `+`, `%` and non-ASCII ones. */
  lemma {:induction false} EncodeOutput(s: string)
    ensures forall k :: 0 <= k < |Encode(s)| ==> Encoded(Encode(s)[k])
  {
    if s != [] {
      EncodeCharOutput(s[0]);
      EncodeOutput(s[1..]);
      var head, tail := EncodeChar(s[0]), Encode(s[1..]);
      forall k | 0 <= k < |head + tail| ensures Encoded((head + tail)[k]) {
        if k >= |head| { assert (head + tail)[k] == tail[k - |head|]; }
      }
    }
  }

  /** So the separators `&`, `=`, `?` and `#` never occur in a serialised string. */
  lemma EncodeHasNoSeparators(s: string)
    ensures '&' !in Encode(s) && '=' !in Encode(s) && '?' !in Encode(s) && '#' !in Encode(s)
  {
    EncodeOutput(s);
  }

  lemma DecodeEncodeChar(c: char, rest: string)
    ensures Decode(EncodeChar(c) + rest) == [c] + Decode(rest)
  {
    var e := EncodeChar(c) + rest;
    if !IsSafe(c) && c != ' ' && (c as int) < 128 {
      var hi, lo := c as int / 16, c as int % 16;
      HexDigitValue(hi);
      HexDigitValue(lo);
      assert e[0] == '%' && e[1] == HexDigits[hi] && e[2] == HexDigits[lo];
      assert e[3..] == rest;
      assert (16 * hi + lo) as char == c;
    } else {
      assert e[1..] == rest;
    }
  }

  /** Decoding undoes encoding, for every string. */
  lemma {:induction false} DecodeEncode(s: string)
    ensures Decode(Encode(s)) == s
  {
    if s != [] {
      DecodeEncodeChar(s[0], Encode(s[1..]));
      DecodeEncode(s[1..]);
      assert [s[0]] + s[1..] == s;
    }
  }

  /** One `name=value` pair as `toString` writes it. */
  function PairString(p: (string, string)): string {
    Encode(p.0) + "=" + Encode(p.1)
  }

  function PairStrings(ps: Params): (parts: seq<string>)
    ensures |parts| == |ps|
    ensures forall k :: 0 <= k < |ps| ==> parts[k] == PairString(ps[k])
  {
    if ps == [] then [] else [PairString(ps[0])] + PairStrings(ps[1..])
  }

  /** `params.toString()`. */
  function Serialize(ps: Params): string {
    Join(PairStrings(ps), '&')
  }

  /** One `name=value` sequence read back: split at the first `=`, decode both sides. */
  function ParsePair(part: string): (string, string) {
    var i := IndexOf(part, '=');
    (Decode(part[..i]), if i < |part| then Decode(part[i + 1..]) else "")
  }

  /** The `&`-separated sequences, skipping empty ones. */
  function ParseParts(parts: seq<string>): Params {
    if parts == [] then []
    else if parts[0] == "" then ParseParts(parts[1..])
    else [ParsePair(parts[0])] + ParseParts(parts[1..])
  }

  /** `new URLSearchParams(query)`; a leading `?` is dropped. */
  function Parse(query: string): Params {
    var q := if |query| > 0 && query[0] == '?' then query[1..] else query;
    ParseParts(Split(q, '&'))
  }

  /** `params.get(name)`: the first value stored under `name`, or `null` (`None`). */
  function Get(ps: Params, name: string): (r: Option<string>)
    ensures r.Some? <==> exists k :: 0 <= k < |ps| && ps[k].0 == name
  {
    if ps == [] then None
    else if ps[0].0 == name then Some(ps[0].1)
    else
      var r := Get(ps[1..], name);
      assert r.Some? ==> exists k :: 0 <= k < |ps| - 1 && ps[1..][k].0 == name;
      assert r.Some? ==> exists k :: 0 <= k < |ps| && ps[k].0 == name;
      r
  }

  lemma ParsePairString(p: (string, string))
    ensures PairString(p) != ""
    ensures ParsePair(PairString(p)) == p
  {
    var part := PairString(p);
    var name := Encode(p.0);
    EncodeHasNoSeparators(p.0);
    assert part == name + ['='] + Encode(p.1);
    var i := IndexOf(part, '=');
    assert part[|name|] == '=';
    assert i == |name|;
    assert part[..i] == name;
    assert part[i + 1..] == Encode(p.1);
    DecodeEncode(p.0);
    DecodeEncode(p.1);
  }

  lemma {:induction false} ParsePartsPairStrings(ps: Params)
    ensures ParseParts(PairStrings(ps)) == ps
  {
    if ps != [] {
      ParsePairString(ps[0]);
      assert PairStrings(ps)[1..] == PairStrings(ps[1..]);
      ParsePartsPairStrings(ps[1..]);
      assert [ps[0]] + ps[1..] == ps;
    }
  }

  /** Parsing what `toString` wrote gives back the same parameters, in the same order. */
  lemma ParseSerialize(ps: Params)
    ensures Parse(Serialize(ps)) == ps
  {
    var parts := PairStrings(ps);
    if ps == [] {
      assert Serialize(ps) == "";
      assert Split("", '&') == [""];
      assert ParseParts([""]) == [];
    } else {
      forall k | 0 <= k < |parts| ensures '&' !in parts[k] {
        EncodeHasNoSeparators(ps[k].0);
        EncodeHasNoSeparators(ps[k].1);
      }
      SplitJoin(parts, '&');
      var text := Serialize(ps);
      ParsePairString(ps[0]);
      SerializeStart(ps);
      assert Parse(text) == ParseParts(parts);
      ParsePartsPairStrings(ps);
    }
  }

  /** A serialised parameter list holds no `?`, so it cannot be mistaken for the end of a path. */
  lemma SerializeHasNoQuestionMark(ps: Params)
    ensures '?' !in Serialize(ps)
  {
    var parts := PairStrings(ps);
    forall k | 0 <= k < |parts| ensures '?' !in parts[k] {
      EncodeHasNoSeparators(ps[k].0);
      EncodeHasNoSeparators(ps[k].1);
      assert parts[k] == Encode(ps[k].0) + "=" + Encode(ps[k].1);
    }
    JoinAvoids(parts, '&', '?');
  }

  /** A serialised parameter list never starts with `?`. */
  lemma SerializeStart(ps: Params)
    requires ps != []
    ensures |Serialize(ps)| > 0 && Serialize(ps)[0] != '?'
  {
    var parts := PairStrings(ps);
    var first := PairString(ps[0]);
    EncodeHasNoSeparators(ps[0].0);
    assert Serialize(ps) == if |parts| == 1 then first else first + ['&'] + Join(parts[1..], '&');
    assert first[0] in Encode(ps[0].0) + "=";
  }

  /** A serialised parameter list is empty exactly when there are no parameters. */
  lemma SerializeEmpty(ps: Params)
    ensures Serialize(ps) == "" <==> ps == []
  {
    if ps != [] {
      SerializeStart(ps);
    }
  }
}
