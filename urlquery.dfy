/**
 * `url.QueryEscape` and `url.QueryUnescape` on byte strings: the encoding the
 * middleware applies to the original request URI when it sends a client to
 * the challenge, and undoes when the challenge is solved.
 */
module UrlQuery {
  import opened Base

  predicate IsByte(c: char)
  {
    c as int < 256
  }

  predicate IsByteString(s: string)
  {
    forall i :: 0 <= i < |s| ==> IsByte(s[i])
  }

  /** Bytes `QueryEscape` leaves alone: letters, digits and `-_.~`. */
  predicate Unreserved(c: char)
  {
    ('a' <= c <= 'z') || ('A' <= c <= 'Z') || ('0' <= c <= '9') || c == '-' || c == '_' || c == '.' || c == '~'
  }

  predicate IsHex(c: char)
  {
    ('0' <= c <= '9') || ('a' <= c <= 'f') || ('A' <= c <= 'F')
  }

  function Unhex(c: char): (v: nat)
    requires IsHex(c)
    ensures v < 16
  {
    if '0' <= c <= '9' then c as int - '0' as int
    else if 'a' <= c <= 'f' then c as int - 'a' as int + 10
    else c as int - 'A' as int + 10
  }

  /** The upper-case hexadecimal digit of `v`, as Go's escaper writes it. */
  function HexDigit(v: nat): (c: char)
    requires v < 16
    ensures IsHex(c) && Unhex(c) == v
  {
    "0123456789ABCDEF"[v]
  }

  /** The escaped form of one byte. */
  function EscapeByte(c: char): (r: string)
    requires IsByte(c)
    ensures |r| == 1 || |r| == 3
  {
    if Unreserved(c) then [c]
    else if c == ' ' then "+"
    else ['%', HexDigit(c as int / 16), HexDigit(c as int % 16)]
  }

  /** `url.QueryEscape`. */
  function QueryEscape(s: string): (r: string)
    requires IsByteString(s)
    ensures s == [] <==> r == []
    ensures forall i :: 0 <= i < |r| ==> Unreserved(r[i]) || r[i] == '+' || r[i] == '%'
  {
    if s == [] then [] else EscapeByte(s[0]) + QueryEscape(s[1..])
  }

  /**
   * `url.QueryUnescape`: `+` becomes a space, `%XY` the byte with hexadecimal
   * value XY; a `%` not followed by two hexadecimal digits is an error.
   */
  function QueryUnescape(s: string): (r: Option<string>)
  {
    if s == [] then Some([])
    else if s[0] == '%' then
      if |s| >= 3 && IsHex(s[1]) && IsHex(s[2]) then
        match QueryUnescape(s[3..])
        case None => None
        case Some(t) => Some([(Unhex(s[1]) * 16 + Unhex(s[2])) as char] + t)
      else None
    else
      match QueryUnescape(s[1..])
      case None => None
      case Some(t) => Some([if s[0] == '+' then ' ' else s[0]] + t)
  }

  /** Unescaping undoes escaping: the destination a client is sent back to is the URI it asked for. */
  lemma {:induction false} UnescapeEscape(s: string)
    requires IsByteString(s)
    ensures QueryUnescape(QueryEscape(s)) == Some(s)
  {
    if s != [] {
      var c := s[0];
      UnescapeEscape(s[1..]);
      var e := EscapeByte(c);
      var rest := QueryEscape(s[1..]);
      assert QueryEscape(s) == e + rest;
      if Unreserved(c) {
        assert (e + rest)[0] == c != '%' && c != '+' && (e + rest)[1..] == rest;
        assert s == [c] + s[1..];
      } else if c == ' ' {
        assert (e + rest)[0] == '+' && (e + rest)[1..] == rest;
        assert s == [' '] + s[1..];
      } else {
        var x := e + rest;
        assert x[0] == '%' && x[1] == e[1] && x[2] == e[2] && x[3..] == rest;
        assert Unhex(e[1]) * 16 + Unhex(e[2]) == c as int;
        assert QueryUnescape(x) == Some([c] + s[1..]);
        assert s == [c] + s[1..];
      }
    }
  }

  /** A lone or truncated `%` anywhere in the string makes the whole string unescapable. */
  lemma {:induction false} UnescapeRejectsBadPercent(s: string, i: nat)
    requires i < |s| && s[i] == '%' && (i + 2 >= |s| || !IsHex(s[i + 1]) || !IsHex(s[i + 2]))
    ensures QueryUnescape(s) == None
    decreases i
  {
    if i > 0 {
      if s[0] != '%' {
        UnescapeRejectsBadPercent(s[1..], i - 1);
      } else if |s| >= 3 && IsHex(s[1]) && IsHex(s[2]) {
        // a valid escape in front: the bad `%` lies beyond it
        assert i >= 3;
        UnescapeRejectsBadPercent(s[3..], i - 3);
      }
    }
  }
}
