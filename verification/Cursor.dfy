/** The session list's opaque cursor (sessions_api.py): URL-safe base64 without
    its padding (RFC 4648, sections 3.2 and 5). */
module Cursor {
  import opened Common

  type Byte = n: nat | n < 256
  type Sextet = n: nat | n < 64

  const BAR: Byte := 124

  // -- the alphabet -----------------------------------------------------------------

  function ToChar(s: Sextet): (c: char)
    ensures c != '='
  {
    if s < 26 then ('A' as int + s) as char
    else if s < 52 then ('a' as int + s - 26) as char
    else if s < 62 then ('0' as int + s - 52) as char
    else if s == 62 then '-'
    else '_'
  }

  function FromChar(c: char): Option<Sextet> {
    if 'A' <= c <= 'Z' then Some(c as int - 'A' as int)
    else if 'a' <= c <= 'z' then Some(c as int - 'a' as int + 26)
    else if '0' <= c <= '9' then Some(c as int - '0' as int + 52)
    else if c == '-' then Some(62)
    else if c == '_' then Some(63)
    else None
  }

  lemma CharRoundTrip(s: Sextet)
    ensures FromChar(ToChar(s)) == Some(s)
    ensures ToChar(0) == 'A' && ToChar(26) == 'a' && ToChar(52) == '0' && ToChar(62) == '-' && ToChar(63) == '_'
    ensures s !in {25, 51, 61, 62, 63} ==> ToChar(s + 1) as int == ToChar(s) as int + 1
  {
  }

  // -- padded base64 -------------------------------------------------------------------

  // The four sextets of three bytes.
  function First(a: Byte): Sextet { a / 4 }
  function Second(a: Byte, b: Byte): Sextet { a % 4 * 16 + b / 16 }
  function Third(b: Byte, c: Byte): Sextet { b % 16 * 4 + c / 64 }
  function Fourth(c: Byte): Sextet { c % 64 }

  function Quad(a: Byte, b: Byte, c: Byte): (q: string)
    ensures |q| == 4 && '=' !in q
  {
    [ToChar(First(a)), ToChar(Second(a, b)), ToChar(Third(b, c)), ToChar(Fourth(c))]
  }

  function Encode(b: seq<Byte>): string {
    match |b|
    case 0 => ""
    case 1 => [ToChar(First(b[0])), ToChar(Second(b[0], 0)), '=', '=']
    case 2 => [ToChar(First(b[0])), ToChar(Second(b[0], b[1])), ToChar(Third(b[1], 0)), '=']
    case _ => Quad(b[0], b[1], b[2]) + Encode(b[3..])
  }

  function DecodeQuad(w: Sextet, x: Sextet, y: Sextet, z: Sextet): seq<Byte> {
    [w * 4 + x / 16, x % 16 * 16 + y / 4, y % 4 * 64 + z]
  }

  /** Decodes padded text; nothing for a bad length, character or padding. */
  function Decode(s: string): Option<seq<Byte>> {
    if s == "" then Some([])
    else if |s| < 4 then None
    else
      var (w, x, y, z) := (FromChar(s[0]), FromChar(s[1]), FromChar(s[2]), FromChar(s[3]));
      if w.None? || x.None? then None
      else if |s| == 4 && s[2] == '=' && s[3] == '=' then Some(DecodeQuad(w.value, x.value, 0, 0)[..1])
      else if y.None? then None
      else if |s| == 4 && s[3] == '=' then Some(DecodeQuad(w.value, x.value, y.value, 0)[..2])
      else if z.None? then None
      else
        var rest := Decode(s[4..]);
        if rest.None? then None else Some(DecodeQuad(w.value, x.value, y.value, z.value) + rest.value)
  }

  /** Most significant bits first. */
  lemma QuadIsOneNumber(a: Byte, b: Byte, c: Byte)
    ensures First(a) * 262144 + Second(a, b) * 4096 + Third(b, c) * 64 + Fourth(c) == a * 65536 + b * 256 + c
  {
  }

  lemma QuadRoundTrip(a: Byte, b: Byte, c: Byte)
    ensures DecodeQuad(First(a), Second(a, b), Third(b, c), Fourth(c)) == [a, b, c]
  {
  }

  lemma DecodeStep(w: Sextet, x: Sextet, y: Sextet, z: Sextet, rest: string)
    requires Decode(rest).Some?
    ensures Decode([ToChar(w), ToChar(x), ToChar(y), ToChar(z)] + rest) ==
            Some(DecodeQuad(w, x, y, z) + Decode(rest).value)
  {
    CharRoundTrip(w);
    CharRoundTrip(x);
    CharRoundTrip(y);
    CharRoundTrip(z);
    var s := [ToChar(w), ToChar(x), ToChar(y), ToChar(z)] + rest;
    assert s[4..] == rest;
  }

  lemma DecodeLastOne(w: Sextet, x: Sextet)
    ensures Decode([ToChar(w), ToChar(x), '=', '=']) == Some(DecodeQuad(w, x, 0, 0)[..1])
  {
    CharRoundTrip(w);
    CharRoundTrip(x);
  }

  lemma DecodeLastTwo(w: Sextet, x: Sextet, y: Sextet)
    ensures Decode([ToChar(w), ToChar(x), ToChar(y), '=']) == Some(DecodeQuad(w, x, y, 0)[..2])
  {
    CharRoundTrip(w);
    CharRoundTrip(x);
    CharRoundTrip(y);
  }

  lemma OneDecodes(a: Byte)
    ensures Decode([ToChar(First(a)), ToChar(Second(a, 0)), '=', '=']) == Some([a])
  {
    QuadRoundTrip(a, 0, 0);
    DecodeLastOne(First(a), Second(a, 0));
    assert [a, 0, 0][..1] == [a];
  }

  lemma TwoDecode(a: Byte, b: Byte)
    ensures Decode([ToChar(First(a)), ToChar(Second(a, b)), ToChar(Third(b, 0)), '=']) == Some([a, b])
  {
    QuadRoundTrip(a, b, 0);
    DecodeLastTwo(First(a), Second(a, b), Third(b, 0));
    assert [a, b, 0][..2] == [a, b];
  }

  lemma ThreeDecode(a: Byte, b: Byte, c: Byte, rest: string)
    requires Decode(rest).Some?
    ensures Decode(Quad(a, b, c) + rest) == Some([a, b, c] + Decode(rest).value)
  {
    QuadRoundTrip(a, b, c);
    DecodeStep(First(a), Second(a, b), Third(b, c), Fourth(c), rest);
  }

  lemma {:induction false} EncodeDecodes(b: seq<Byte>)
    ensures Decode(Encode(b)) == Some(b)
  {
    if |b| == 1 {
      OneDecodes(b[0]);
      assert b == [b[0]];
    } else if |b| == 2 {
      TwoDecode(b[0], b[1]);
      assert b == [b[0], b[1]];
    } else if |b| > 2 {
      var rest := Encode(b[3..]);
      EncodeDecodes(b[3..]);
      assert Encode(b) == Quad(b[0], b[1], b[2]) + rest;
      ThreeDecode(b[0], b[1], b[2], rest);
      assert b == [b[0], b[1], b[2]] + b[3..];
    }
  }

  // -- dropping and restoring the padding ---------------------------------------------------

  function Strip(s: string): string {
    if s != "" && s[|s| - 1] == '=' then Strip(s[..|s| - 1]) else s
  }

  function Padding(n: nat): string {
    match n % 4
    case 0 => ""
    case 3 => "="
    case 2 => "=="
    case _ => "==="
  }

  function Pad(s: string): string { s + Padding(|s|) }

  lemma {:induction false} StripKeepsFront(front: string, s: string)
    requires front != "" && '=' !in front
    ensures Strip(front + s) == front + Strip(s)
  {
    if s == "" {
      assert front + s == front;
    } else {
      assert (front + s)[..|front + s| - 1] == front + s[..|s| - 1];
      if s[|s| - 1] == '=' {
        StripKeepsFront(front, s[..|s| - 1]);
      }
    }
  }

  /** A front without padding comes back from one or two padding characters. */
  lemma StripLast(front: string)
    requires 2 <= |front| <= 3 && '=' !in front
    ensures Strip(front + Padding(|front|)) == front && Pad(front) == front + Padding(|front|)
  {
    var p := Padding(|front|);
    assert "=="[..1] == "=" && "="[..0] == "";
    assert Strip(p) == "";
    StripKeepsFront(front, p);
  }

  lemma PadAfterQuad(quad: string, s: string)
    requires |quad| == 4
    ensures Pad(quad + s) == quad + Pad(s)
  {
    assert (4 + |s|) % 4 == |s| % 4;
  }

  lemma {:induction false} PaddingComesBack(b: seq<Byte>)
    ensures Pad(Strip(Encode(b))) == Encode(b)
  {
    if |b| == 1 {
      var front := [ToChar(First(b[0])), ToChar(Second(b[0], 0))];
      assert Encode(b) == front + Padding(|front|);
      StripLast(front);
    } else if |b| == 2 {
      var front := [ToChar(First(b[0])), ToChar(Second(b[0], b[1])), ToChar(Third(b[1], 0))];
      assert Encode(b) == front + Padding(|front|);
      StripLast(front);
    } else if |b| > 2 {
      var quad, rest := Quad(b[0], b[1], b[2]), Encode(b[3..]);
      PaddingComesBack(b[3..]);
      StripKeepsFront(quad, rest);
      PadAfterQuad(quad, Strip(rest));
    }
  }

  // -- the cursor ---------------------------------------------------------------------------------

  /** `partition("|")`: what stands before and after the first bar. */
  function Partition(s: seq<Byte>): (seq<Byte>, seq<Byte>) {
    if s == [] then ([], [])
    else if s[0] == BAR then ([], s[1..])
    else
      var (before, after) := Partition(s[1..]);
      ([s[0]] + before, after)
  }

  /** The bytes of the timestamp in ISO form, and of the session id. */
  function EncodeCursor(moment: seq<Byte>, id: seq<Byte>): string { Strip(Encode(moment + [BAR] + id)) }

  function DecodeCursor(cursor: string): Option<(seq<Byte>, seq<Byte>)> {
    var raw := Decode(Pad(cursor));
    if raw.None? then None
    else
      var (moment, id) := Partition(raw.value);
      if moment == [] || id == [] then None else Some((moment, id))
  }

  lemma {:induction false} PartitionStops(before: seq<Byte>, after: seq<Byte>)
    requires BAR !in before
    ensures Partition(before + [BAR] + after) == (before, after)
  {
    var s := before + [BAR] + after;
    if before == [] {
      assert s[1..] == after;
    } else {
      assert s[0] == before[0] && before[0] in before;
      assert s[1..] == before[1..] + [BAR] + after;
      PartitionStops(before[1..], after);
      assert Partition(s) == ([s[0]] + Partition(s[1..]).0, Partition(s[1..]).1);
      assert before == [before[0]] + before[1..];
    }
  }

  lemma {:induction false} PartitionHasNoBar(s: seq<Byte>)
    ensures BAR !in Partition(s).0
  {
    if s != [] && s[0] != BAR {
      PartitionHasNoBar(s[1..]);
    }
  }

  /** A cursor decodes to what was encoded exactly when both parts are there and
      the timestamp holds no bar, as in every row. */
  lemma CursorRoundTripIff(moment: seq<Byte>, id: seq<Byte>)
    ensures DecodeCursor(EncodeCursor(moment, id)) == Some((moment, id)) <==> moment != [] && id != [] && BAR !in moment
  {
    var raw := moment + [BAR] + id;
    PaddingComesBack(raw);
    EncodeDecodes(raw);
    PartitionHasNoBar(raw);
    if BAR !in moment {
      PartitionStops(moment, id);
    }
  }

  /** No two rows share a cursor. */
  lemma CursorsDiffer(moment: seq<Byte>, id: seq<Byte>, moment': seq<Byte>, id': seq<Byte>)
    requires moment != [] && id != [] && BAR !in moment && moment' != [] && id' != [] && BAR !in moment'
    requires EncodeCursor(moment, id) == EncodeCursor(moment', id')
    ensures moment == moment' && id == id'
  {
    CursorRoundTripIff(moment, id);
    CursorRoundTripIff(moment', id');
  }
}
