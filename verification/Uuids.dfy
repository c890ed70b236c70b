/** UUIDs and their text forms, as operation ids and trash names spell them. */
module Uuids {
  import opened Types

  function Pow16(w: nat): (r: nat)
    ensures r >= 1
  {
    if w == 0 then 1 else 16 * Pow16(w - 1)
  }

  const DIGITS: nat := 32

  /** A 128-bit number; its fixed-width text orders UUIDs as the numbers do. */
  type Uuid = n: nat | n < Pow16(DIGITS) witness 0

  function DigitText(d: nat): char
    requires d < 16
  {
    if d < 10 then '0' + d as char else 'a' + (d - 10) as char
  }

  function DigitValue(c: char): (r: Option<nat>)
    ensures r.Some? ==> r.value < 16
  {
    if '0' <= c <= '9' then Some((c - '0') as nat)
    else if 'a' <= c <= 'f' then Some((c - 'a') as nat + 10)
    else if 'A' <= c <= 'F' then Some((c - 'A') as nat + 10)
    else None
  }

  function Hex(n: nat, width: nat): (r: string)
    ensures |r| == width
  {
    if width == 0 then "" else Hex(n / 16, width - 1) + [DigitText(n % 16)]
  }

  function Value(s: string): (r: Option<nat>)
    ensures r.Some? ==> r.value < Pow16(|s|)
  {
    if s == "" then Some(0) else
    var high, low := Value(s[..|s| - 1]), DigitValue(s[|s| - 1]);
    if high.None? || low.None? then None else Some(high.value * 16 + low.value)
  }

  lemma {:induction false} ValueHex(n: nat, width: nat)
    requires n < Pow16(width)
    ensures Value(Hex(n, width)) == Some(n)
  {
    if width > 0 {
      ValueHex(n / 16, width - 1);
      assert Hex(n, width)[..width - 1] == Hex(n / 16, width - 1);
    }
  }

  function Hyphenate(s: string): (r: string)
    requires |s| == DIGITS
    ensures |r| == 36
  {
    s[..8] + "-" + s[8..12] + "-" + s[12..16] + "-" + s[16..20] + "-" + s[20..]
  }

  /** The hyphenated lower-case form that Display prints. */
  function Text(id: Uuid): (r: string)
    ensures |r| == 36
  {
    Hyphenate(Hex(id, DIGITS))
  }

  function Plain(s: string): (r: Option<Uuid>)
    requires |s| == DIGITS
  {
    var v := Value(s);
    if v.None? then None else Some(v.value)
  }

  function Hyphenated(s: string): (r: Option<Uuid>)
    requires |s| == 36
  {
    if s[8] != '-' || s[13] != '-' || s[18] != '-' || s[23] != '-' then None
    else Plain(s[..8] + s[9..13] + s[14..18] + s[19..23] + s[24..])
  }

  /** Uuid::parse_str: the simple, hyphenated, braced and URN forms, in either case. */
  function Parse(s: string): (r: Option<Uuid>) {
    if |s| == DIGITS then Plain(s)
    else if |s| == 36 then Hyphenated(s)
    else if |s| == 38 && s[0] == '{' && s[37] == '}' then Hyphenated(s[1..37])
    else if |s| == 45 && s[..9] == "urn:uuid:" then Hyphenated(s[9..])
    else None
  }

  lemma {:induction false} HyphensOut(s: string)
    requires |s| == DIGITS
    ensures Parse(Hyphenate(s)) == Plain(s)
  {
    hide Plain;
    var t := Hyphenate(s);
    assert t[..8] == s[..8] && t[8] == '-';
    assert t[9..13] == s[8..12] && t[13] == '-';
    assert t[14..18] == s[12..16] && t[18] == '-';
    assert t[19..23] == s[16..20] && t[23] == '-';
    assert t[24..] == s[20..];
    assert s[..8] + s[8..12] + s[12..16] + s[16..20] + s[20..] == s;
  }

  lemma {:induction false} ParseText(id: Uuid)
    ensures Parse(Text(id)) == Some(id)
  {
    hide Parse, Hyphenate;
    HyphensOut(Hex(id, DIGITS));
    ValueHex(id, DIGITS);
  }

  lemma {:induction false} TextInjective(a: Uuid, b: Uuid)
    requires Text(a) == Text(b)
    ensures a == b
  {
    ParseText(a);
    ParseText(b);
  }
}
