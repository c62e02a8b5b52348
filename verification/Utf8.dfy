/** UTF-8 as section 3 of RFC 3629 defines it: an encoder and a strict decoder, each the other's inverse. */
module Utf8 {
  import opened Common

  /** An element of a Python `str`; a file name that is not UTF-8 arrives with lone surrogates in it. */
  type CodePoint = c: int | 0 <= c < 0x11_0000
  type Byte = b: int | 0 <= b < 0x100
  type Text = seq<CodePoint>

  predicate Surrogate(c: CodePoint) {
    0xD800 <= c < 0xE000
  }

  ghost predicate Scalars(t: Text) {
    forall i :: 0 <= i < |t| ==> !Surrogate(t[i])
  }

  function EncodeScalar(c: CodePoint): seq<Byte> {
    if c < 0x80 then [c]
    else if c < 0x800 then [0xC0 + c / 0x40, 0x80 + c % 0x40]
    else if c < 0x1_0000 then [0xE0 + c / 0x1000, 0x80 + c / 0x40 % 0x40, 0x80 + c % 0x40]
    else [0xF0 + c / 0x4_0000, 0x80 + c / 0x1000 % 0x40, 0x80 + c / 0x40 % 0x40, 0x80 + c % 0x40]
  }

  /** `str.encode("utf-8")`, which raises on a surrogate. */
  function Encode(t: Text): Option<seq<Byte>> {
    if t == [] then Some([])
    else if Surrogate(t[0]) then None
    else
      var rest := Encode(t[1..]);
      if rest.None? then None else Some(EncodeScalar(t[0]) + rest.value)
  }

  predicate Tail(b: Byte) {
    0x80 <= b < 0xC0
  }

  datatype Scalar = Scalar(value: CodePoint, length: nat)

  /** The first character of UTF8-octets: shortest forms only, no surrogates, nothing over U+10FFFF. */
  function DecodeScalar(b: seq<Byte>): (r: Option<Scalar>)
    ensures r.Some? ==> 1 <= r.value.length <= |b|
  {
    if b == [] then None
    else if b[0] < 0x80 then Some(Scalar(b[0], 1))
    else if 0xC2 <= b[0] < 0xE0 then
      if |b| >= 2 && Tail(b[1]) then Some(Scalar((b[0] as int - 0xC0) * 0x40 + (b[1] as int - 0x80), 2)) else None
    else if 0xE0 <= b[0] < 0xF0 then
      if |b| >= 3 && Tail(b[1]) && Tail(b[2]) && (b[0] == 0xE0 ==> b[1] >= 0xA0) && (b[0] == 0xED ==> b[1] < 0xA0) then
        Some(Scalar((b[0] as int - 0xE0) * 0x1000 + (b[1] as int - 0x80) * 0x40 + (b[2] as int - 0x80), 3))
      else None
    else if 0xF0 <= b[0] < 0xF5 then
      if |b| >= 4 && Tail(b[1]) && Tail(b[2]) && Tail(b[3])
         && (b[0] == 0xF0 ==> b[1] >= 0x90) && (b[0] == 0xF4 ==> b[1] < 0x90) then
        Some(Scalar((b[0] as int - 0xF0) * 0x4_0000 + (b[1] as int - 0x80) * 0x1000 + (b[2] as int - 0x80) * 0x40
                    + (b[3] as int - 0x80), 4))
      else None
    else None
  }

  function Decode(b: seq<Byte>): Option<Text>
    decreases |b|
  {
    if b == [] then Some([])
    else
      var first := DecodeScalar(b);
      if first.None? then None
      else
        var rest := Decode(b[first.value.length..]);
        if rest.None? then None else Some([first.value.value] + rest.value)
  }

  lemma DecodeFirst(c: CodePoint, rest: seq<Byte>)
    requires !Surrogate(c)
    ensures DecodeScalar(EncodeScalar(c) + rest) == Some(Scalar(c, |EncodeScalar(c)|))
  {
    var e := EncodeScalar(c);
    assert forall i :: 0 <= i < |e| ==> (e + rest)[i] == e[i];
    assert c == c / 0x40 * 0x40 + c % 0x40;
    assert c / 0x40 / 0x40 == c / 0x1000;
    assert c / 0x1000 / 0x40 == c / 0x4_0000;
  }

  lemma EncodeFirst(b: seq<Byte>)
    requires DecodeScalar(b).Some?
    ensures var first := DecodeScalar(b).value;
      !Surrogate(first.value) && EncodeScalar(first.value) == b[..first.length]
  {
    if b[0] >= 0xF0 {
      EncodeFour(b[0] - 0xF0, b[1] - 0x80, b[2] - 0x80, b[3] - 0x80);
    } else if b[0] >= 0xE0 {
      EncodeThree(b[0] - 0xE0, b[1] - 0x80, b[2] - 0x80);
    } else if b[0] >= 0x80 {
      Digits(b[0] - 0xC0, b[1] - 0x80, DecodeScalar(b).value.value);
    }
  }

  lemma EncodeThree(x: int, y: int, z: int)
    requires 0 <= x < 0x10 && 0 <= y < 0x40 && 0 <= z < 0x40
    requires 0x800 <= x * 0x1000 + y * 0x40 + z
    ensures EncodeScalar(x * 0x1000 + y * 0x40 + z) == [0xE0 + x, 0x80 + y, 0x80 + z]
  {
    Digits(x, y, x * 0x40 + y);
    Digits(x * 0x40 + y, z, x * 0x1000 + y * 0x40 + z);
  }

  lemma EncodeFour(w: int, x: int, y: int, z: int)
    requires 0 <= w < 5 && 0 <= x < 0x40 && 0 <= y < 0x40 && 0 <= z < 0x40
    requires 0x1_0000 <= w * 0x4_0000 + x * 0x1000 + y * 0x40 + z < 0x11_0000
    ensures EncodeScalar(w * 0x4_0000 + x * 0x1000 + y * 0x40 + z) == [0xF0 + w, 0x80 + x, 0x80 + y, 0x80 + z]
  {
    Digits(w, x, w * 0x40 + x);
    Digits(w * 0x40 + x, y, w * 0x1000 + x * 0x40 + y);
    Digits(w * 0x1000 + x * 0x40 + y, z, w * 0x4_0000 + x * 0x1000 + y * 0x40 + z);
  }

  lemma Digits(high: int, low: int, n: int)
    requires 0 <= low < 0x40 && n == high * 0x40 + low
    ensures n / 0x40 == high && n % 0x40 == low
  {
  }

  /** What is encoded decodes to itself, and only a surrogate keeps a text from being encoded. */
  lemma {:induction false} DecodeOfEncode(t: Text)
    ensures Encode(t).Some? <==> Scalars(t)
    ensures Encode(t).Some? ==> Decode(Encode(t).value) == Some(t)
  {
    if t != [] {
      DecodeOfEncode(t[1..]);
      if Encode(t).Some? {
        DecodeFirst(t[0], Encode(t[1..]).value);
        var e := EncodeScalar(t[0]);
        assert Encode(t).value[|e|..] == Encode(t[1..]).value;
        assert [t[0]] + t[1..] == t;
      }
    }
  }

  /** The decoder takes nothing but what the encoder makes: no second spelling of a path. */
  lemma {:induction false} EncodeOfDecode(b: seq<Byte>)
    requires Decode(b).Some?
    ensures Encode(Decode(b).value) == Some(b)
    decreases |b|
  {
    if b != [] {
      var n := DecodeScalar(b).value.length;
      EncodeOfDecode(b[n..]);
      EncodeFirst(b);
      assert b[..n] + b[n..] == b;
      assert Decode(b).value[1..] == Decode(b[n..]).value;
    }
  }
}
