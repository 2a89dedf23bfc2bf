/** The slice of Java's value semantics the SMB helpers depend on: references
    that may be null, the widths of `int` and `long`, the way string
    concatenation renders a null reference or an integer, `String.startsWith`,
    and reading a `user:password` pair back at its first colon. */
module JavaText {
  import opened Wrappers

  /** A Java `String` reference: `None` is `null`. */
  type JString = Option<string>

  const Int32Min: int := -0x8000_0000
  const Int32Max: int := 0x7FFF_FFFF
  const Int64Min: int := -0x8000_0000_0000_0000
  const Int64Max: int := 0x7FFF_FFFF_FFFF_FFFF

  /** Java `int`. */
  type Int32 = x: int | Int32Min <= x <= Int32Max
  /** Java `long`. */
  type Int64 = x: int | Int64Min <= x <= Int64Max

  /** What `"..." + s` appends for a `String` reference `s`. */
  function Render(s: JString): string {
    match s
    case None => "null"
    case Some(v) => v
  }

  /** The literal `null` and the string "null" render alike, so a rendered
      reference does not tell the two apart. */
  lemma RenderConflatesNull()
    ensures Render(None) == Render(Some("null"))
  {
  }

  // ---------------------------------------------------------------------
  // String.startsWith

  /** `s.startsWith(prefix)`, character by character and case-sensitive. */
  function StartsWith(s: string, prefix: string): (r: bool)
    ensures r <==> |prefix| <= |s| && s[..|prefix|] == prefix
  {
    if |prefix| == 0 then true
    else if |s| == 0 then false
    else s[0] == prefix[0] && StartsWith(s[1..], prefix[1..])
  }

  // ---------------------------------------------------------------------
  // Decimal rendering of integers, as string concatenation performs it

  predicate IsDigit(c: char) {
    '0' <= c <= '9'
  }

  predicate AllDigits(s: string) {
    forall i :: 0 <= i < |s| ==> IsDigit(s[i])
  }

  function DigitChar(d: nat): (c: char)
    requires d < 10
    ensures IsDigit(c)
  {
    "0123456789"[d]
  }

  function DigitValue(c: char): (d: nat)
    requires IsDigit(c)
    ensures d < 10
  {
    c as int - '0' as int
  }

  /** The decimal digits of `n`, most significant first. */
  function NatToDecimal(n: nat): (s: string)
    ensures 1 <= |s|
    ensures AllDigits(s)
    ensures s[0] == '0' <==> n == 0
    ensures n == 0 ==> s == "0"
  {
    if n < 10 then [DigitChar(n)]
    else NatToDecimal(n / 10) + [DigitChar(n % 10)]
  }

  /** The text Java appends for an integer: a minus sign for a negative value,
      then the digits of its magnitude without leading zeros. */
  function IntToDecimal(n: int): (s: string)
    ensures 1 <= |s|
    ensures s[0] == '-' <==> n < 0
    ensures AllDigits(if n < 0 then s[1..] else s)
  {
    if n < 0 then "-" + NatToDecimal(-n) else NatToDecimal(n)
  }

  /** The value of a digit string, read most significant digit first, or
      `None` when some character is not a digit. */
  function ParseDigits(s: string): Option<nat> {
    if |s| == 0 then Some(0)
    else
      match ParseDigits(s[..|s| - 1])
      case None => None
      case Some(v) =>
        if IsDigit(s[|s| - 1]) then Some(v * 10 + DigitValue(s[|s| - 1])) else None
  }

  /** Reads an optionally signed, non-empty digit string back as an integer. */
  function ParseDecimal(s: string): Option<int> {
    if 2 <= |s| && s[0] == '-' then
      match ParseDigits(s[1..])
      case None => None
      case Some(v) => Some(-(v as int))
    else if 1 <= |s| then
      match ParseDigits(s)
      case None => None
      case Some(v) => Some(v as int)
    else None
  }

  lemma {:induction false} NatDecimalRoundTrip(n: nat)
    ensures ParseDigits(NatToDecimal(n)) == Some(n)
  {
    var s := NatToDecimal(n);
    if n < 10 {
      assert s[..0] == [];
    } else {
      NatDecimalRoundTrip(n / 10);
      assert s[..|s| - 1] == NatToDecimal(n / 10);
      assert s[|s| - 1] == DigitChar(n % 10);
    }
  }

  /** Minus sign and digits read back as the negated number. */
  lemma NegativeRoundTrip(m: nat)
    ensures ParseDecimal("-" + NatToDecimal(m)) == Some(-(m as int))
  {
    var digits := NatToDecimal(m);
    var s := "-" + digits;
    NatDecimalRoundTrip(m);
    assert s[1..] == digits;
    assert ParseDigits(s[1..]) == Some(m);
    assert 2 <= |s| && s[0] == '-';
  }

  /** A negative number's text reads back as that number. */
  lemma NegativeIntRoundTrip(n: int)
    requires n < 0
    ensures ParseDecimal(IntToDecimal(n)) == Some(n)
  {
    var m: nat := -n;
    assert IntToDecimal(n) == "-" + NatToDecimal(m);
    NegativeRoundTrip(m);
  }

  /** A non-negative number's text reads back as that number. */
  lemma NonNegativeRoundTrip(n: int)
    requires 0 <= n
    ensures ParseDecimal(IntToDecimal(n)) == Some(n)
  {
    var digits := NatToDecimal(n);
    assert IntToDecimal(n) == digits;
    assert IsDigit(digits[0]);
    NatDecimalRoundTrip(n);
  }

  /** Rendering an integer loses nothing: the rendered text reads back as the
      same integer. */
  lemma {:induction false} DecimalRoundTrip(n: int)
    ensures ParseDecimal(IntToDecimal(n)) == Some(n)
  {
    if n < 0 {
      NegativeIntRoundTrip(n);
    } else {
      NonNegativeRoundTrip(n);
    }
  }

  // ---------------------------------------------------------------------
  // The `user:password` form of a URI's user information

  /** The position of the first occurrence of `c` in `s`, if any. */
  function IndexOf(s: string, c: char): (r: Option<nat>)
    ensures r.None? <==> c !in s
    ensures r.Some? ==> r.value < |s| && s[r.value] == c && c !in s[..r.value]
  {
    if |s| == 0 then None
    else if s[0] == c then Some(0)
    else
      match IndexOf(s[1..], c)
      case None => None
      case Some(i) => Some(i + 1)
  }

  /** `user + ":" + password`, with Java's rendering of null references. */
  function JoinUserInfo(username: JString, password: JString): (s: string)
    ensures |s| == |Render(username)| + 1 + |Render(password)|
    ensures s[..|Render(username)|] == Render(username)
    ensures s[|Render(username)|] == ':'
    ensures s[|Render(username)| + 1..] == Render(password)
  {
    Render(username) + ":" + Render(password)
  }

  /** Reads user information back as (user, password), splitting at the first
      colon as section 3.2.1 of RFC 3986 describes the deprecated
      `user:password` form; with no colon the whole text is the user. */
  function SplitUserInfo(userInfo: string): (r: (string, string))
    ensures ':' in userInfo ==> |r.0| < |userInfo| && userInfo == r.0 + ":" + r.1
    ensures ':' in userInfo ==> ':' !in r.0
    ensures ':' !in userInfo ==> r == (userInfo, "")
  {
    match IndexOf(userInfo, ':')
    case None => (userInfo, "")
    case Some(i) => (userInfo[..i], userInfo[i + 1..])
  }

  /** The joined user information splits back into the two rendered parts,
      provided the rendered user name holds no colon of its own. */
  lemma UserInfoRoundTrip(username: JString, password: JString)
    ensures ':' !in Render(username) ==>
              SplitUserInfo(JoinUserInfo(username, password)) == (Render(username), Render(password))
  {
  }

  /** A colon inside the user name moves the split: ("a:b", "pw") reads back
      as ("a", "b:pw"). */
  lemma UserInfoColonInUserName()
    ensures SplitUserInfo(JoinUserInfo(Some("a:b"), Some("pw"))) == ("a", "b:pw")
  {
    var s := JoinUserInfo(Some("a:b"), Some("pw"));
    assert s == "a:b:pw";
    assert s[1..] == ":b:pw";
    assert IndexOf(s, ':') == Some(1);
    assert s[..1] == "a" && s[2..] == "b:pw";
  }
}
