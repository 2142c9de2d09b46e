/**
 * The navigation state codec: `encodeURIComponent` as the board page applies it to
 * board and view ids, the two query strings the page pushes onto the browser history,
 * and the reading of a query parameter back (as `URLSearchParams.get` does when the
 * page is constructed).
 */
module UriCodec {
  import opened Optional

  type Byte = n: int | 0 <= n < 256
  type Nibble = n: int | 0 <= n < 16

  /** The characters `encodeURIComponent` leaves as they are. */
  predicate Unreserved(c: char) {
    ('A' <= c <= 'Z') || ('a' <= c <= 'z') || ('0' <= c <= '9') ||
    c == '-' || c == '_' || c == '.' || c == '!' || c == '~' ||
    c == '*' || c == '\'' || c == '(' || c == ')'
  }

  /** Characters that may appear in an encoded component. */
  predicate UriSafe(c: char) {
    Unreserved(c) || c == '%'
  }

  /** Upper-case hexadecimal digit, as `encodeURIComponent` writes them. */
  function HexDigit(d: Nibble): (c: char)
    ensures Unreserved(c)
  {
    if d < 10 then ('0' as int + d) as char else ('A' as int + d - 10) as char
  }

  /** Value of a hexadecimal digit of either case. */
  function HexValue(c: char): Option<Nibble> {
    if '0' <= c <= '9' then Some(c as int - '0' as int)
    else if 'A' <= c <= 'F' then Some(c as int - 'A' as int + 10)
    else if 'a' <= c <= 'f' then Some(c as int - 'a' as int + 10)
    else None
  }

  /** The UTF-8 encoding of a Unicode scalar value. */
  function Utf8(c: char): seq<Byte> {
    var n := c as int;
    if n < 0x80 then [n]
    else if n < 0x800 then [0xC0 + n / 64, 0x80 + n % 64]
    else if n < 0x1_0000 then [0xE0 + n / 4096, 0x80 + n / 64 % 64, 0x80 + n % 64]
    else [0xF0 + n / 262144, 0x80 + n / 4096 % 64, 0x80 + n / 64 % 64, 0x80 + n % 64]
  }

  /** Each byte written as a `%XY` escape. */
  function Percent(bytes: seq<Byte>): (s: string)
    ensures |s| == 3 * |bytes|
    ensures forall i :: 0 <= i < |s| ==> UriSafe(s[i])
  {
    if bytes == [] then []
    else ['%', HexDigit(bytes[0] / 16), HexDigit(bytes[0] % 16)] + Percent(bytes[1..])
  }

  function EncodeChar(c: char): string {
    if Unreserved(c) then [c] else Percent(Utf8(c))
  }

  /** `encodeURIComponent`: the result holds only unreserved characters and escapes. */
  function EncodeComponent(s: string): (r: string)
    ensures forall i :: 0 <= i < |r| ==> UriSafe(r[i])
  {
    if s == [] then []
    else EncodeChar(s[0]) + EncodeComponent(s[1..])
  }

  /** The byte of a `%XY` escape at the head of `s`. */
  function ReadByte(s: string): (r: Option<Byte>)
    ensures r.Some? ==> |s| >= 3
  {
    if |s| >= 3 && s[0] == '%' && HexValue(s[1]).Some? && HexValue(s[2]).Some? then
      Some(HexValue(s[1]).value * 16 + HexValue(s[2]).value)
    else None
  }

  /** The six payload bits of a UTF-8 continuation byte escaped at the head of `s`. */
  function ReadContinuation(s: string): (r: Option<int>)
    ensures r.Some? ==> |s| >= 3 && 0 <= r.value < 64
  {
    match ReadByte(s)
    case Some(b) => if 0x80 <= b < 0xC0 then Some(b - 0x80) else None
    case None => None
  }

  /**
   * The character whose UTF-8 bytes are escaped at the head of `s`, and how many
   * characters of `s` those escapes take; `None` for a malformed or overlong sequence.
   */
  function DecodeEscape(s: string): (r: Option<(char, nat)>)
    ensures r.Some? ==> 3 <= r.value.1 <= |s|
  {
    match ReadByte(s)
    case None => None
    case Some(b0) =>
      if b0 < 0x80 then Some((b0 as char, 3))
      else if 0xC2 <= b0 < 0xE0 then
        match ReadContinuation(s[3..])
        case None => None
        case Some(c1) => Some((((b0 - 0xC0) * 64 + c1) as char, 6))
      else if 0xE0 <= b0 < 0xF0 then
        match (ReadContinuation(s[3..]), if |s| >= 6 then ReadContinuation(s[6..]) else None)
        case (Some(c1), Some(c2)) =>
          var n := ((b0 - 0xE0) * 64 + c1) * 64 + c2;
          if n < 0x800 || (0xD800 <= n < 0xE000) then None else Some((n as char, 9))
        case _ => None
      else if 0xF0 <= b0 < 0xF5 then
        match (ReadContinuation(s[3..]),
               if |s| >= 6 then ReadContinuation(s[6..]) else None,
               if |s| >= 9 then ReadContinuation(s[9..]) else None)
        case (Some(c1), Some(c2), Some(c3)) =>
          var n := (((b0 - 0xF0) * 64 + c1) * 64 + c2) * 64 + c3;
          if n < 0x1_0000 || n >= 0x11_0000 then None else Some((n as char, 12))
        case _ => None
      else None
  }

  function Prepend(c: char, r: Option<string>): Option<string> {
    if r.Some? then Some([c] + r.value) else None
  }

  /**
   * Percent-decoding of a query component as `URLSearchParams` performs it: escapes
   * become the character their UTF-8 bytes encode and `+` becomes a space.
   */
  function DecodeComponent(s: string): (r: Option<string>)
    ensures r.Some? ==> |r.value| <= |s|
    ensures '%' !in s && '+' !in s ==> r == Some(s)
    decreases |s|
  {
    if s == [] then Some([])
    else if s[0] == '%' then
      match DecodeEscape(s)
      case None => None
      case Some((c, k)) => Prepend(c, DecodeComponent(s[k..]))
    else
      assert [s[0]] + s[1..] == s;
      assert '%' !in s ==> '%' !in s[1..];
      assert '+' !in s ==> '+' !in s[1..];
      Prepend(if s[0] == '+' then ' ' else s[0], DecodeComponent(s[1..]))
  }

  // ---------------------------------------------------------------------------
  // Round trip of the component codec

  lemma HexRoundTrip(d: Nibble)
    ensures HexValue(HexDigit(d)) == Some(d)
  {
  }

  lemma {:induction false} PercentHead(bytes: seq<Byte>, rest: string)
    requires bytes != []
    ensures ReadByte(Percent(bytes) + rest) == Some(bytes[0])
    ensures (Percent(bytes) + rest)[3..] == Percent(bytes[1..]) + rest
  {
    var b := bytes[0];
    var s := Percent(bytes) + rest;
    assert s == ['%', HexDigit(b / 16), HexDigit(b % 16)] + (Percent(bytes[1..]) + rest);
    HexRoundTrip(b / 16);
    HexRoundTrip(b % 16);
  }

  lemma {:induction false} ContinuationHead(bytes: seq<Byte>, rest: string)
    requires bytes != [] && 0x80 <= bytes[0] < 0xC0
    ensures ReadContinuation(Percent(bytes) + rest) == Some(bytes[0] - 0x80)
  {
    PercentHead(bytes, rest);
  }

  lemma Split3(n: int)
    requires 0 <= n < 0x1_0000
    ensures ((n / 4096) * 64 + n / 64 % 64) * 64 + n % 64 == n
  {
    var q := n / 64;
    assert n == q * 64 + n % 64;
    assert q == (q / 64) * 64 + q % 64;
    assert n / 4096 == q / 64;
  }

  lemma Split4(n: int)
    requires 0 <= n < 0x11_0000
    ensures (((n / 262144) * 64 + n / 4096 % 64) * 64 + n / 64 % 64) * 64 + n % 64 == n
  {
    var q := n / 64;
    var q2 := q / 64;
    assert n == q * 64 + n % 64;
    assert q == q2 * 64 + q % 64;
    assert q2 == (q2 / 64) * 64 + q2 % 64;
    assert n / 4096 == q2;
    assert n / 262144 == q2 / 64;
  }

  /** Reading the escapes of `bytes` one after another. */
  lemma {:induction false} PercentAt(bytes: seq<Byte>, rest: string, k: nat)
    requires k <= |bytes|
    ensures (Percent(bytes) + rest)[3 * k..] == Percent(bytes[k..]) + rest
  {
    if k > 0 {
      PercentAt(bytes, rest, k - 1);
      PercentHead(bytes[k - 1..], rest);
      assert bytes[k - 1..][1..] == bytes[k..];
    }
  }

  /** The continuation byte `bytes[k]` read from the escapes of `bytes`. */
  lemma {:induction false} ContinuationAt(bytes: seq<Byte>, rest: string, k: nat)
    requires k < |bytes| && 0x80 <= bytes[k] < 0xC0
    ensures ReadContinuation((Percent(bytes) + rest)[3 * k..]) == Some(bytes[k] - 0x80)
  {
    PercentAt(bytes, rest, k);
    ContinuationHead(bytes[k..], rest);
  }

  lemma {:induction false} DecodeEscape2(c: char, s: string)
    requires 0x80 <= c as int < 0x800
    requires ReadByte(s) == Some(Utf8(c)[0])
    requires ReadContinuation(s[3..]) == Some(Utf8(c)[1] - 0x80)
    ensures DecodeEscape(s) == Some((c, 6))
  {
    var bs := Utf8(c);
    assert (bs[0] as int - 0xC0) * 64 + (bs[1] as int - 0x80) == c as int;
  }

  lemma {:induction false} DecodeEscape3(c: char, s: string)
    requires 0x800 <= c as int < 0x1_0000
    requires ReadByte(s) == Some(Utf8(c)[0])
    requires ReadContinuation(s[3..]) == Some(Utf8(c)[1] - 0x80)
    requires |s| >= 6 && ReadContinuation(s[6..]) == Some(Utf8(c)[2] - 0x80)
    ensures DecodeEscape(s) == Some((c, 9))
  {
    Split3(c as int);
  }

  lemma {:induction false} DecodeEscape4(c: char, s: string)
    requires 0x1_0000 <= c as int
    requires ReadByte(s) == Some(Utf8(c)[0])
    requires ReadContinuation(s[3..]) == Some(Utf8(c)[1] - 0x80)
    requires |s| >= 6 && ReadContinuation(s[6..]) == Some(Utf8(c)[2] - 0x80)
    requires |s| >= 9 && ReadContinuation(s[9..]) == Some(Utf8(c)[3] - 0x80)
    ensures DecodeEscape(s) == Some((c, 12))
  {
    Split4(c as int);
  }

  /** The escapes of a two-byte character decode back to it. */
  lemma {:induction false} DecodeUtf8Two(c: char, rest: string)
    requires 0x80 <= c as int < 0x800
    ensures DecodeEscape(Percent(Utf8(c)) + rest) == Some((c, 6))
  {
    var bs := Utf8(c);
    PercentHead(bs, rest);
    ContinuationAt(bs, rest, 1);
    DecodeEscape2(c, Percent(bs) + rest);
  }

  /** The escapes of a three-byte character decode back to it. */
  lemma {:induction false} DecodeUtf8Three(c: char, rest: string)
    requires 0x800 <= c as int < 0x1_0000
    ensures DecodeEscape(Percent(Utf8(c)) + rest) == Some((c, 9))
  {
    var bs := Utf8(c);
    PercentHead(bs, rest);
    ContinuationAt(bs, rest, 1);
    ContinuationAt(bs, rest, 2);
    DecodeEscape3(c, Percent(bs) + rest);
  }

  /** The escapes of a four-byte character decode back to it. */
  lemma {:induction false} DecodeUtf8Four(c: char, rest: string)
    requires 0x1_0000 <= c as int
    ensures DecodeEscape(Percent(Utf8(c)) + rest) == Some((c, 12))
  {
    var bs := Utf8(c);
    PercentHead(bs, rest);
    ContinuationAt(bs, rest, 1);
    ContinuationAt(bs, rest, 2);
    ContinuationAt(bs, rest, 3);
    DecodeEscape4(c, Percent(bs) + rest);
  }

  /** The escapes of one character's UTF-8 bytes decode back to that character. */
  lemma {:induction false} DecodeEscapeOfUtf8(c: char, rest: string)
    requires !Unreserved(c)
    ensures DecodeEscape(Percent(Utf8(c)) + rest) == Some((c, 3 * |Utf8(c)|))
    ensures (Percent(Utf8(c)) + rest)[3 * |Utf8(c)|..] == rest
  {
    var n := c as int;
    var bs := Utf8(c);
    PercentAt(bs, rest, |bs|);
    assert bs[|bs|..] == [];
    if n < 0x80 {
      PercentHead(bs, rest);
    } else if n < 0x800 {
      DecodeUtf8Two(c, rest);
    } else if n < 0x1_0000 {
      DecodeUtf8Three(c, rest);
    } else {
      DecodeUtf8Four(c, rest);
    }
  }

  lemma {:induction false} DecodeEncodeChar(c: char, rest: string)
    ensures DecodeComponent(EncodeChar(c) + rest) == Prepend(c, DecodeComponent(rest))
  {
    var s := EncodeChar(c) + rest;
    if Unreserved(c) {
      assert s[0] == c && s[1..] == rest;
    } else {
      DecodeEscapeOfUtf8(c, rest);
      assert s[0] == '%';
    }
  }

  /** Decoding undoes `encodeURIComponent`: no two ids share an encoding. */
  lemma {:induction false} DecodeEncode(s: string)
    ensures DecodeComponent(EncodeComponent(s)) == Some(s)
  {
    if s != [] {
      DecodeEncode(s[1..]);
      DecodeEncodeChar(s[0], EncodeComponent(s[1..]));
      assert [s[0]] + s[1..] == s;
    }
  }

  // ---------------------------------------------------------------------------
  // Query strings

  /**
   * The query the page pushes when it shows a board: `?id=` alone. Read back, it
   * names the board and no view.
   */
  function BoardQuery(boardId: string): (q: string)
    ensures QueryParam(q, "id") == Some(boardId) && QueryParam(q, "v") == None
  {
    BoardFieldsReadBack(boardId);
    "?id=" + EncodeComponent(boardId)
  }

  /** The query the page pushes when it shows a view: `?id=…&v=…`. Read back, it names both. */
  function ViewQuery(boardId: string, viewId: string): (q: string)
    ensures QueryParam(q, "id") == Some(boardId) && QueryParam(q, "v") == Some(viewId)
  {
    ViewFieldsReadBack(boardId, viewId);
    "?id=" + EncodeComponent(boardId) + "&v=" + EncodeComponent(viewId)
  }

  /** An id made only of unreserved characters is its own encoding. */
  lemma {:induction false} EncodeUnreserved(s: string)
    requires forall i :: 0 <= i < |s| ==> Unreserved(s[i])
    ensures EncodeComponent(s) == s
  {
    if s != [] {
      EncodeUnreserved(s[1..]);
      assert [s[0]] + s[1..] == s;
    }
  }

  /** Ids made only of unreserved characters appear in the pushed queries as they are. */
  lemma PlainIdsInQueries(boardId: string, viewId: string)
    requires forall i :: 0 <= i < |boardId| ==> Unreserved(boardId[i])
    requires forall i :: 0 <= i < |viewId| ==> Unreserved(viewId[i])
    ensures BoardQuery(boardId) == "?id=" + boardId
    ensures ViewQuery(boardId, viewId) == "?id=" + boardId + "&v=" + viewId
  {
    EncodeUnreserved(boardId);
    EncodeUnreserved(viewId);
  }

  /** `s` cut at every `sep`. */
  function Split(s: string, sep: char): (parts: seq<string>)
    ensures |parts| >= 1
    ensures forall i :: 0 <= i < |parts| ==> |parts[i]| <= |s|
  {
    if s == [] then [[]]
    else
      var rest := Split(s[1..], sep);
      if s[0] == sep then [[]] + rest else [[s[0]] + rest[0]] + rest[1..]
  }

  /** `s` cut at its first `sep`; the second part is empty when there is none. */
  function SplitFirst(s: string, sep: char): (r: (string, string))
    ensures |r.0| <= |s| && |r.1| <= |s|
    ensures s != [] ==> |r.1| < |s|
  {
    if s == [] then ([], [])
    else if s[0] == sep then ([], s[1..])
    else
      var (name, value) := SplitFirst(s[1..], sep);
      ([s[0]] + name, value)
  }

  /** The decoded value of the first `name=value` field whose decoded name is `name`. */
  function Lookup(fields: seq<string>, name: string): (r: Option<string>)
    ensures r.Some? ==> exists i :: 0 <= i < |fields| && |r.value| < |fields[i]|
  {
    if fields == [] then None
    else if fields[0] == [] then Lookup(fields[1..], name)
    else
      var (k, v) := SplitFirst(fields[0], '=');
      if DecodeComponent(k) == Some(name) then DecodeComponent(v) else Lookup(fields[1..], name)
  }

  /** `URLSearchParams(query).get(name)`. */
  function QueryParam(query: string, name: string): (r: Option<string>)
    ensures r.Some? ==> |r.value| < |query|
  {
    var body := if |query| > 0 && query[0] == '?' then query[1..] else query;
    Lookup(Split(body, '&'), name)
  }

  lemma {:induction false} SplitNoSeparator(a: string, sep: char)
    requires sep !in a
    ensures Split(a, sep) == [a]
  {
    if a != [] {
      SplitNoSeparator(a[1..], sep);
      assert [a[0]] + a[1..] == a;
    }
  }

  lemma {:induction false} SplitAtSeparator(a: string, b: string, sep: char)
    requires sep !in a
    ensures Split(a + [sep] + b, sep) == [a] + Split(b, sep)
  {
    if a == [] {
      assert a + [sep] + b == [sep] + b;
    } else {
      SplitAtSeparator(a[1..], b, sep);
      assert (a + [sep] + b)[1..] == a[1..] + [sep] + b;
      assert [a[0]] + a[1..] == a;
    }
  }

  lemma {:induction false} SplitFirstAtSeparator(a: string, b: string, sep: char)
    requires sep !in a
    ensures SplitFirst(a + [sep] + b, sep) == (a, b)
  {
    if a == [] {
      assert a + [sep] + b == [sep] + b;
    } else {
      SplitFirstAtSeparator(a[1..], b, sep);
      assert (a + [sep] + b)[1..] == a[1..] + [sep] + b;
      assert [a[0]] + a[1..] == a;
    }
  }

  lemma EncodedHasNo(s: string, c: char)
    requires !UriSafe(c)
    ensures c !in EncodeComponent(s)
  {
  }

  /** Looking `name` up in a field `key=encoded value`. */
  lemma {:induction false} LookupField(key: string, value: string, more: seq<string>, name: string)
    requires '=' !in key && forall i :: 0 <= i < |key| ==> Unreserved(key[i])
    ensures Lookup([key + ['='] + EncodeComponent(value)] + more, name)
         == if key == name then Some(value) else Lookup(more, name)
  {
    var fields := [key + ['='] + EncodeComponent(value)] + more;
    assert fields[0] != [] && fields[1..] == more;
    SplitFirstAtSeparator(key, EncodeComponent(value), '=');
    assert '%' !in key && '+' !in key;
    DecodeEncode(value);
  }

  /** Reading back `?id=` and an encoded board id gives the board id and no view id. */
  lemma {:induction false} BoardFieldsReadBack(boardId: string)
    ensures QueryParam("?id=" + EncodeComponent(boardId), "id") == Some(boardId)
    ensures QueryParam("?id=" + EncodeComponent(boardId), "v") == None
  {
    var f1 := "id" + ['='] + EncodeComponent(boardId);
    assert ("?id=" + EncodeComponent(boardId))[1..] == f1;
    EncodedHasNo(boardId, '&');
    SplitNoSeparator(f1, '&');
    assert [f1] == [f1] + [];
    LookupField("id", boardId, [], "id");
    LookupField("id", boardId, [], "v");
  }

  /** Reading back `?id=…&v=…` with both ids encoded gives both ids. */
  lemma {:induction false} ViewFieldsReadBack(boardId: string, viewId: string)
    ensures QueryParam("?id=" + EncodeComponent(boardId) + "&v=" + EncodeComponent(viewId), "id") == Some(boardId)
    ensures QueryParam("?id=" + EncodeComponent(boardId) + "&v=" + EncodeComponent(viewId), "v") == Some(viewId)
  {
    var f1 := "id" + ['='] + EncodeComponent(boardId);
    var f2 := "v" + ['='] + EncodeComponent(viewId);
    assert ("?id=" + EncodeComponent(boardId) + "&v=" + EncodeComponent(viewId))[1..] == f1 + ['&'] + f2;
    EncodedHasNo(boardId, '&');
    EncodedHasNo(viewId, '&');
    SplitAtSeparator(f1, f2, '&');
    SplitNoSeparator(f2, '&');
    assert [f2] == [f2] + [];
    LookupField("id", boardId, [f2], "id");
    LookupField("id", boardId, [f2], "v");
    LookupField("v", viewId, [], "v");
  }
}
