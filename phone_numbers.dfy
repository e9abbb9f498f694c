/** `generate_phone_number` and the 5-digit login code of
    `send_telegram_code_message`, with `random.randint(0, 9)` replaced by a
    sequence of digits supplied by the caller. */
module PhoneNumbers {
  import opened Decimal
  import Catalog

  /** Enough random digits for any dialing code. */
  const MaxRandomDigits: nat := 10

  /** The fixed two digits the generator puts after the dialing code. */
  function FixedPrefix(code: string): string {
    if code == "+380" then "97"
    else if code == "+375" then "29"
    else if code == "+998" then "99"
    else if code == "+992" then "98"
    else ""
  }

  /** How many random digits the generator draws for a dialing code. */
  function RandomDigitCount(code: string): nat {
    if code == "+1" then 10 else 9 - |FixedPrefix(code)|
  }

  /** The number format for a dialing code: the code, then the fixed prefix,
      then only digits, 10 of them after the code for "+1" and 9 otherwise. */
  predicate IsPhoneNumberFor(code: string, s: string) {
    && |s| == |code| + |FixedPrefix(code)| + RandomDigitCount(code)
    && s[..|code|] == code
    && s[|code|..|code| + |FixedPrefix(code)|] == FixedPrefix(code)
    && IsDigits(s[|code|..])
  }

  /** `generate_phone_number(code)`, drawing its random digits from the front
      of `rand`: the dialing code, then only digits, ten of them for "+1" and
      nine for every other code, the first two fixed for the four codes that
      have a prefix. */
  function GeneratePhoneNumber(code: string, rand: seq<Digit>): (r: string)
    requires |rand| >= MaxRandomDigits
    ensures |r| >= |code| && r[..|code|] == code
    ensures IsDigits(r[|code|..])
    ensures |r| - |code| == if code == "+1" then 10 else 9
    ensures code == "+380" ==> r[|code|..|code| + 2] == "97"
    ensures code == "+375" ==> r[|code|..|code| + 2] == "29"
    ensures code == "+998" ==> r[|code|..|code| + 2] == "99"
    ensures code == "+992" ==> r[|code|..|code| + 2] == "98"
    ensures IsPhoneNumberFor(code, r)
  {
    var number :=
      if code == "+1" then DigitsToString(rand[..10])
      else if code == "+380" then "97" + DigitsToString(rand[..7])
      else if code == "+375" then "29" + DigitsToString(rand[..7])
      else if code == "+998" then "99" + DigitsToString(rand[..7])
      else if code == "+992" then "98" + DigitsToString(rand[..7])
      else DigitsToString(rand[..9]);
    assert number == FixedPrefix(code) + DigitsToString(rand[..RandomDigitCount(code)]);
    AssembledNumberHasFormat(code, rand[..RandomDigitCount(code)]);
    code + number
  }

  /** The code, its fixed prefix and the right number of digits make a number of the code's format. */
  lemma AssembledNumberHasFormat(code: string, ds: seq<Digit>)
    requires |ds| == RandomDigitCount(code)
    ensures IsPhoneNumberFor(code, code + (FixedPrefix(code) + DigitsToString(ds)))
  {
    var p, d := FixedPrefix(code), DigitsToString(ds);
    var r := code + (p + d);
    assert r[..|code|] == code;
    assert r[|code|..] == p + d;
    assert r[|code|..|code| + |p|] == p;
    assert forall i :: 0 <= i < |p + d| ==> (p + d)[i] == if i < |p| then p[i] else d[i - |p|];
  }

  /** The random digits a well-formed number carries after its code and prefix. */
  function RandomPart(code: string, s: string): (ds: seq<Digit>)
    requires IsPhoneNumberFor(code, s)
    ensures |ds| == RandomDigitCount(code)
  {
    var tail := s[|code| + |FixedPrefix(code)|..];
    assert forall i :: 0 <= i < |tail| ==> tail[i] == s[|code|..][|FixedPrefix(code)| + i];
    StringToDigits(tail)
  }

  /** The generator keeps every digit it draws: they can be read back from its result. */
  lemma GenerateKeepsRandomDigits(code: string, rand: seq<Digit>)
    requires |rand| >= MaxRandomDigits
    ensures RandomPart(code, GeneratePhoneNumber(code, rand)) == rand[..RandomDigitCount(code)]
  {
    var r := GeneratePhoneNumber(code, rand);
    var n := RandomDigitCount(code);
    var p := FixedPrefix(code);
    assert r[|code| + |p|..] == DigitsToString(rand[..n]);
  }

  /** Every number of the right format is one the generator can produce. */
  lemma EveryWellFormedNumberIsGenerated(code: string, s: string)
    requires IsPhoneNumberFor(code, s)
    ensures GeneratePhoneNumber(code, RandomPart(code, s) + seq(MaxRandomDigits - RandomDigitCount(code), _ => 0)) == s
  {
    var ds := RandomPart(code, s);
    var rand: seq<Digit> := ds + seq(MaxRandomDigits - RandomDigitCount(code), _ => 0);
    var p := FixedPrefix(code);
    assert rand[..|ds|] == ds;
    var r := GeneratePhoneNumber(code, rand);
    assert r[..|code|] == s[..|code|];
    assert r[|code|..|code| + |p|] == s[|code|..|code| + |p|];
    assert r[|code| + |p|..] == DigitsToString(ds) == s[|code| + |p|..];
    assert r == r[..|code|] + r[|code|..|code| + |p|] + r[|code| + |p|..];
    assert s == s[..|code|] + s[|code|..|code| + |p|] + s[|code| + |p|..];
  }

  /** The catalog's physical ("физ") numbers are exactly those with a fixed prefix. */
  lemma PhysicalVariantsHavePrefix(i: nat)
    requires i < |Catalog.NumbersData|
    ensures var v := Catalog.NumbersData[i].variant;
      v.kind == "физ" <==> |FixedPrefix(v.code)| == 2
  {
  }

  /** The login code: `''.join([str(random.randint(0, 9)) for _ in range(5)])`. */
  function VerificationCode(rand: seq<Digit>): (c: string)
    requires |rand| >= 5
    ensures |c| == 5 && IsDigits(c)
    ensures forall i :: 0 <= i < 5 ==> DigitValue(c[i]) == rand[i]
  {
    DigitsToString(rand[..5])
  }
}
