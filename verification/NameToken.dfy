/** How a sensor's name becomes part of ROS names: src/netft_hardware_interface.cpp, lines 138 to 176. Names are
    arbitrary byte strings. */
module NameToken {
  import opened Protocol

  type Char = c: char | c as int < 256 witness 'a'
  type Name = seq<Char>

  const PREFIX: Name := "netft_encoded_"
  const LOWER_HEX: Name := "0123456789abcdef"

  predicate IsLetter(c: Char) {
    'a' <= c <= 'z' || 'A' <= c <= 'Z'
  }

  predicate TokenChar(c: Char) {
    IsLetter(c) || '0' <= c <= '9' || c == '_'
  }

  /** What ROS accepts as one token of a name. */
  predicate IsToken(name: Name) {
    name != [] && (IsLetter(name[0]) || name[0] == '_') && forall i :: 0 <= i < |name| ==> TokenChar(name[i])
  }

  method IsRosNameToken(name: Name) returns (ok: bool)
    ensures ok == IsToken(name)
  {
    if name == [] {
      return false;
    }
    if !IsLetter(name[0]) && name[0] != '_' {
      return false;
    }
    for i := 0 to |name|
      invariant forall j :: 0 <= j < i ==> TokenChar(name[j])
    {
      if !IsLetter(name[i]) && !('0' <= name[i] <= '9') && name[i] != '_' {
        return false;
      }
    }
    return true;
  }

  function Hex(name: Name): (digits: Name)
    ensures |digits| == 2 * |name|
    ensures forall i :: 0 <= i < |digits| ==> digits[i] in LOWER_HEX
  {
    if name == [] then []
    else
      var byte := name[|name| - 1] as int;
      Hex(name[..|name| - 1]) + [LOWER_HEX[byte / 16], LOWER_HEX[byte % 16]]
  }

  /** A name is its own token if ROS accepts it and it does not look encoded. */
  predicate IsPlain(name: Name) {
    IsToken(name) && !(PREFIX <= name)
  }

  function Encode(name: Name): Name {
    if IsPlain(name) then name else PREFIX + Hex(name)
  }

  method CollisionSafeNameToken(name: Name) returns (result: Name)
    ensures result == Encode(name)
  {
    var token := IsRosNameToken(name);
    if token && !(PREFIX <= name) {
      return name;
    }
    result := PREFIX;
    for i := 0 to |name|
      invariant result == PREFIX + Hex(name[..i])
    {
      var byte := name[i] as int;
      assert name[..i + 1][..i] == name[..i];
      result := result + [LOWER_HEX[byte / 16]];
      result := result + [LOWER_HEX[byte % 16]];
    }
    assert name[..|name|] == name;
  }

  lemma {:induction false} HexSpells(name: Name, k: nat)
    requires k < |name|
    ensures name[k] as int / 16 < 16
    ensures Hex(name)[2 * k] == LOWER_HEX[name[k] as int / 16] && Hex(name)[2 * k + 1] == LOWER_HEX[name[k] as int % 16]
  {
    hide Hex;
    ByteOfDigits(name[k] as int);
    HexLast(name);
    var n := |name| - 1;
    if k < n {
      HexSpells(name[..n], k);
    }
  }

  lemma HexLast(name: Name)
    requires name != []
    ensures var front, byte := name[..|name| - 1], name[|name| - 1] as int;
            byte / 16 < 16 && byte % 16 < 16 && Hex(name) == Hex(front) + [LOWER_HEX[byte / 16], LOWER_HEX[byte % 16]]
  {
  }

  lemma Behind(front: Name, back: Name, j: nat)
    requires j < |back|
    ensures (front + back)[|front| + j] == back[j]
  {
  }

  /** An encoded name spells each byte, high digit first, behind the prefix. */
  lemma EncodeSpells(name: Name, k: nat)
    requires !IsPlain(name) && k < |name|
    ensures name[k] as int / 16 < 16
    ensures var token := Encode(name);
            && |token| == 14 + 2 * |name| && token[..14] == "netft_encoded_"
            && token[14 + 2 * k] == "0123456789abcdef"[name[k] as int / 16]
            && token[15 + 2 * k] == "0123456789abcdef"[name[k] as int % 16]
  {
    hide IsPlain, Hex;
    ByteOfDigits(name[k] as int);
    HexSpells(name, k);
    Behind(PREFIX, Hex(name), 2 * k);
    Behind(PREFIX, Hex(name), 2 * k + 1);
    assert |PREFIX| == 14;
  }

  // ---------------------------------------------------------------- decoding

  /** The value of a lower-case hexadecimal digit. */
  function DigitValue(c: Char): Option<nat> {
    if '0' <= c <= '9' then Some(c as int - '0' as int)
    else if 'a' <= c <= 'f' then Some(c as int - 'a' as int + 10)
    else None
  }

  function Unhex(digits: Name): Option<Name> {
    if digits == [] then Some([])
    else if |digits| == 1 then None
    else
      var n := |digits|;
      var front, high, low := Unhex(digits[..n - 2]), DigitValue(digits[n - 2]), DigitValue(digits[n - 1]);
      if front.None? || high.None? || low.None? then None
      else Some(front.value + [(high.value * 16 + low.value) as char])
  }

  function Decode(token: Name): Option<Name> {
    if PREFIX <= token then Unhex(token[|PREFIX|..])
    else if IsToken(token) then Some(token)
    else None
  }

  lemma DigitsInvert(v: nat)
    requires v < 16
    ensures DigitValue(LOWER_HEX[v]) == Some(v) && TokenChar(LOWER_HEX[v])
  {
  }

  lemma ByteOfDigits(byte: nat)
    requires byte < 256
    ensures byte / 16 < 16 && byte % 16 < 16 && (byte / 16) * 16 + byte % 16 == byte
  {
  }

  lemma UnhexPair(digits: Name, front: Name, byte: nat)
    requires byte < 256 && Unhex(digits) == Some(front)
    ensures byte / 16 < 16
            && Unhex(digits + [LOWER_HEX[byte / 16], LOWER_HEX[byte % 16]]) == Some(front + [byte as char])
  {
    hide DigitValue;
    var high, low := byte / 16, byte % 16;
    ByteOfDigits(byte);
    DigitsInvert(high);
    DigitsInvert(low);
    var all := digits + [LOWER_HEX[high], LOWER_HEX[low]];
    assert all[..|all| - 2] == digits;
  }

  lemma {:induction false} UnhexInvertsHex(name: Name)
    ensures Unhex(Hex(name)) == Some(name)
  {
    hide Unhex, DigitValue;
    if name == [] {
      UnhexNothing();
    } else {
      var n := |name|;
      UnhexInvertsHex(name[..n - 1]);
      UnhexPair(Hex(name[..n - 1]), name[..n - 1], name[n - 1] as int);
      assert name == name[..n - 1] + [name[n - 1]];
    }
  }

  lemma UnhexNothing()
    ensures Unhex([]) == Some([])
  {
  }

  /** Every name can be read back from its token. */
  lemma DecodeInvertsEncode(name: Name)
    ensures Decode(Encode(name)) == Some(name)
  {
    UnhexInvertsHex(name);
    assert (PREFIX + Hex(name))[|PREFIX|..] == Hex(name);
  }

  /** Two sensors never share a token. */
  lemma EncodeIsInjective(a: Name, b: Name)
    ensures Encode(a) == Encode(b) <==> a == b
  {
    DecodeInvertsEncode(a);
    DecodeInvertsEncode(b);
  }

  lemma HexIsTokenChars(name: Name, i: nat)
    requires i < |Hex(name)|
    ensures TokenChar(Hex(name)[i])
  {
    var v :| 0 <= v < |LOWER_HEX| && LOWER_HEX[v] == Hex(name)[i];
    DigitsInvert(v);
  }

  /** ROS accepts the token of every name, also of the empty one; a name is left alone exactly when it is plain. */
  lemma EncodeIsToken(name: Name)
    ensures IsToken(Encode(name))
    ensures Encode(name) == name <==> IsPlain(name)
  {
    EncodedIsToken(name);
  }

  lemma EncodedIsToken(name: Name)
    ensures IsToken(PREFIX + Hex(name))
  {
    hide Hex;
    var e := PREFIX + Hex(name);
    assert e[0] == 'n';
    forall i | 0 <= i < |e| ensures TokenChar(e[i]) {
      if i >= |PREFIX| {
        HexIsTokenChars(name, i - |PREFIX|);
      } else {
        assert e[i] == PREFIX[i];
      }
    }
  }

  lemma DigitInverts(c: Char)
    requires c in LOWER_HEX
    ensures DigitValue(c).Some? && DigitValue(c).value < 16 && LOWER_HEX[DigitValue(c).value] == c
  {
    var v :| 0 <= v < |LOWER_HEX| && LOWER_HEX[v] == c;
    DigitsInvert(v);
  }

  lemma PairOfByte(high: nat, low: nat)
    requires high < 16 && low < 16
    ensures high * 16 + low < 256 && (high * 16 + low) / 16 == high && (high * 16 + low) % 16 == low
  {
  }

  predicate IsLowerHex(digits: Name) {
    |digits| % 2 == 0 && forall i :: 0 <= i < |digits| ==> digits[i] in LOWER_HEX
  }

  lemma UnhexStep(digits: Name)
    requires |digits| >= 2 && IsLowerHex(digits)
    ensures var n := |digits|;
            var high, low := DigitValue(digits[n - 2]), DigitValue(digits[n - 1]);
            && IsLowerHex(digits[..n - 2]) && high.Some? && low.Some? && high.value < 16 && low.value < 16
            && LOWER_HEX[high.value] == digits[n - 2] && LOWER_HEX[low.value] == digits[n - 1]
            && (Unhex(digits[..n - 2]).Some? ==>
                  Unhex(digits) == Some(Unhex(digits[..n - 2]).value + [(high.value * 16 + low.value) as char]))
  {
    hide DigitValue;
    DigitInverts(digits[|digits| - 2]);
    DigitInverts(digits[|digits| - 1]);
  }

  lemma HexAppend(name: Name, high: nat, low: nat)
    requires high < 16 && low < 16
    ensures high * 16 + low < 256
            && Hex(name + [(high * 16 + low) as char]) == Hex(name) + [LOWER_HEX[high], LOWER_HEX[low]]
  {
    PairOfByte(high, low);
    var all := name + [(high * 16 + low) as char];
    assert all[..|all| - 1] == name;
  }

  /** Pairs of lower-case digits are the encoding of what they decode to. */
  lemma {:induction false} HexInvertsUnhex(digits: Name)
    requires IsLowerHex(digits)
    ensures Unhex(digits).Some? && Hex(Unhex(digits).value) == digits
  {
    hide Hex, Unhex, DigitValue, IsLowerHex;
    var n := |digits|;
    if n == 0 {
      UnhexNothing();
      HexNothing();
    } else {
      PairsAtLeast(digits);
      UnhexStep(digits);
      LastTwo(digits);
      HexInvertsUnhex(digits[..n - 2]);
      HexAppend(Unhex(digits[..n - 2]).value, DigitValue(digits[n - 2]).value, DigitValue(digits[n - 1]).value);
    }
  }

  lemma LastTwo(digits: Name)
    requires |digits| >= 2
    ensures digits == digits[..|digits| - 2] + [digits[|digits| - 2], digits[|digits| - 1]]
  {
  }

  lemma PairsAtLeast(digits: Name)
    requires IsLowerHex(digits) && digits != []
    ensures |digits| >= 2
  {
  }

  lemma HexNothing()
    ensures Hex([]) == []
  {
  }

  /** The tokens of names: the plain ones, and the prefix before lower-case digit pairs that spell no plain name. */
  predicate IsNameToken(token: Name) {
    if PREFIX <= token then
      var digits := token[|PREFIX|..];
      IsLowerHex(digits) && Unhex(digits).Some? && !IsPlain(Unhex(digits).value)
    else IsToken(token)
  }

  lemma TokensOfNames(token: Name)
    ensures (exists name :: Encode(name) == token) <==> IsNameToken(token)
  {
    if name :| Encode(name) == token {
      TokenIsNames(name);
    }
    if IsNameToken(token) {
      NameOfToken(token);
    }
  }

  lemma TokenIsNames(name: Name)
    ensures IsNameToken(Encode(name))
  {
    hide Hex, Unhex;
    assert (PREFIX + Hex(name))[|PREFIX|..] == Hex(name);
    UnhexInvertsHex(name);
  }

  lemma NameOfToken(token: Name)
    requires IsNameToken(token)
    ensures exists name :: Encode(name) == token
  {
    if PREFIX <= token {
      hide Hex, Unhex;
      var digits := token[|PREFIX|..];
      HexInvertsUnhex(digits);
      assert token == PREFIX + digits;
      assert Encode(Unhex(digits).value) == token;
    } else {
      assert Encode(token) == token;
    }
  }
}
