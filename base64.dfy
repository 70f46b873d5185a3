/**
 * The image payload: the data URL a FileReader produces (RFC 2397), the part after its comma,
 * the whitespace clean-up and the alphabet check applied to it, and the base64 encoding of
 * section 4 of RFC 4648 as the reference for what a well-formed payload looks like.
 */
module Base64 {
  import opened Wrappers
  import opened Text

  type Byte = x: int | 0 <= x < 256

  // ---------------------------------------------------------------------------
  // reader.result.split(',')[1]
  // ---------------------------------------------------------------------------

  /** The text up to (not including) the first comma, or all of `s` when it has none. */
  function UpToComma(s: string): (r: string)
    ensures ',' !in r
    ensures IsPrefix(r, s)
    ensures |r| < |s| ==> s[|r|] == ','
  {
    if |s| == 0 || s[0] == ',' then [] else [s[0]] + UpToComma(s[1..])
  }

  /**
   * `s.split(',')[1]`: the second comma-separated field, that is the text between the first
   * and the second comma (or the end); absent (`undefined`) when `s` has no comma.
   */
  function PayloadOf(s: string): Option<string>
  {
    if |s| == 0 then None
    else if s[0] == ',' then Some(UpToComma(s[1..]))
    else PayloadOf(s[1..])
  }

  /** There is a second field exactly when there is a comma. */
  lemma {:induction false} PayloadOfAbsentIff(s: string)
    ensures PayloadOf(s) == None <==> ',' !in s
  {
    if |s| > 0 && s[0] != ',' {
      PayloadOfAbsentIff(s[1..]);
      assert s == [s[0]] + s[1..];
    }
  }

  lemma {:induction false} UpToCommaOf(b: string, rest: string)
    requires ',' !in b
    requires rest == [] || rest[0] == ','
    ensures UpToComma(b + rest) == b
  {
    if |b| > 0 {
      assert (b + rest)[1..] == b[1..] + rest;
      UpToCommaOf(b[1..], rest);
    } else {
      assert b + rest == rest;
    }
  }

  /** For `a,b` or `a,b,...` with comma-free `a` and `b`, the field taken is exactly `b`. */
  lemma {:induction false} PayloadOfFields(a: string, b: string, rest: string)
    requires ',' !in a && ',' !in b
    requires rest == [] || rest[0] == ','
    ensures PayloadOf(a + [','] + b + rest) == Some(b)
  {
    var s := a + [','] + b + rest;
    if |a| == 0 {
      assert s[1..] == b + rest;
      UpToCommaOf(b, rest);
    } else {
      assert s[1..] == a[1..] + [','] + b + rest;
      PayloadOfFields(a[1..], b, rest);
    }
  }

  /** The `data:` URL `readAsDataURL` produces for a blob of type `mime` (RFC 2397). */
  function DataUrl(mime: string, data: string): string
  {
    "data:" + mime + ";base64," + data
  }

  /** The payload read back from a data URL is the encoded data, whenever the type has no comma. */
  lemma PayloadOfDataUrl(mime: string, data: string)
    requires ',' !in mime && ',' !in data
    ensures PayloadOf(DataUrl(mime, data)) == Some(data)
  {
    var a := "data:" + mime + ";base64";
    assert ',' !in a by {
      assert a == "data:" + mime + ";base64";
      forall i | 0 <= i < |a| ensures a[i] != ',' {
        if i < 5 {
          assert a[i] == "data:"[i];
        } else if i < 5 + |mime| {
          assert a[i] == mime[i - 5];
        } else {
          assert a[i] == ";base64"[i - 5 - |mime|];
        }
      }
    }
    assert DataUrl(mime, data) == a + [','] + data + [];
    PayloadOfFields(a, data, []);
  }

  // ---------------------------------------------------------------------------
  // imageBase64.trim().replace(/\s/g, '') and /^[A-Za-z0-9+/=]+$/
  // ---------------------------------------------------------------------------

  /** The payload with all whitespace removed, as the classifier cleans it. */
  function Sanitize(p: string): (r: string)
    ensures NoWhitespace(r)
    ensures r == RemoveWhitespace(p)
  {
    RemoveWhitespaceAfterTrim(p);
    RemoveWhitespace(Trim(p))
  }

  /** A character of the RFC 4648 section 4 alphabet, or the padding character `=`. */
  predicate IsPayloadChar(c: char)
  {
    ('A' <= c <= 'Z') || ('a' <= c <= 'z') || ('0' <= c <= '9') || c == '+' || c == '/' || c == '='
  }

  /**
   * The test `/^[A-Za-z0-9+/=]+$/`: at least one character, each from the alphabet or `=`.
   * Neither the position of `=` nor the length modulo 4 is looked at.
   */
  predicate Accepted(p: string)
  {
    |p| > 0 && forall i :: 0 <= i < |p| ==> IsPayloadChar(p[i])
  }

  // ---------------------------------------------------------------------------
  // Reference: base64 encoding, section 4 of RFC 4648
  // ---------------------------------------------------------------------------

  /** The alphabet character of a 6-bit value (Table 1 of RFC 4648). */
  function Sextet(v: nat): (c: char)
    requires v < 64
    ensures IsPayloadChar(c) && c != '=' && c != ','
  {
    if v < 26 then ('A' as int + v) as char
    else if v < 52 then ('a' as int + (v - 26)) as char
    else if v < 62 then ('0' as int + (v - 52)) as char
    else if v == 62 then '+'
    else '/'
  }

  /** Base64 of `b`: three bytes become four characters; a final one or two bytes are padded with `=`. */
  function Encode(b: seq<Byte>): (r: string)
    ensures |r| == 4 * ((|b| + 2) / 3)
    ensures forall i :: 0 <= i < |r| ==> IsPayloadChar(r[i])
    ensures ',' !in r
    ensures NoWhitespace(r)
  {
    if |b| == 0 then []
    else if |b| == 1 then
      [Sextet(b[0] / 4), Sextet((b[0] % 4) * 16), '=', '=']
    else if |b| == 2 then
      [Sextet(b[0] / 4), Sextet((b[0] % 4) * 16 + b[1] / 16), Sextet((b[1] % 16) * 4), '=']
    else
      [Sextet(b[0] / 4), Sextet((b[0] % 4) * 16 + b[1] / 16), Sextet((b[1] % 16) * 4 + b[2] / 64),
       Sextet(b[2] % 64)] + Encode(b[3..])
  }

  /** The encoding of any non-empty byte string passes the alphabet test. */
  lemma EncodeAccepted(b: seq<Byte>)
    requires |b| > 0
    ensures Accepted(Encode(b))
  {
  }

  /** The test is looser than the encoding: it accepts text no byte string encodes to. */
  lemma AcceptedIsLooserThanEncoding()
    ensures Accepted("A=B")
    ensures forall b: seq<Byte> :: Encode(b) != "A=B"
  {
    forall b: seq<Byte> ensures Encode(b) != "A=B" {
      assert |Encode(b)| % 4 == 0;
    }
  }

  /**
   * An empty or all-whitespace payload fails the test: cleaning leaves nothing, and the pattern
   * asks for at least one character.
   */
  lemma BlankPayloadRejected(p: string)
    requires forall i :: 0 <= i < |p| ==> IsWhitespace(p[i])
    ensures !Accepted(Sanitize(p))
  {
  }
}
