/**
  The HTML fragments admin notices are printed as (the `MESSAGE_DISMISSIBLE` and
  `MESSAGE_PERMANENT` templates with a CSS class and a message substituted), a
  decoder that reads a dismissible fragment back, and the `%d` number format used
  by the import messages.
*/
module NoticeFormat {
  import opened Wrappers

  /** The four notice levels, declared in the order `transients` checks them. */
  datatype Level = Error | Success | Warning | Info

  /** Position of a level in the order `transients` checks the slots (error first). */
  function Rank(l: Level): nat
  {
    match l
    case Error => 0
    case Success => 1
    case Warning => 2
    case Info => 3
  }

  /** The `$level` argument of `add` that selects each level. */
  function LevelName(l: Level): string
  {
    match l
    case Error => "error"
    case Success => "success"
    case Warning => "warning"
    case Info => "info"
  }

  /** The `switch ($level)` of `add`: one of the four names, or no level at all. */
  function ParseLevel(s: string): (r: Option<Level>)
    ensures r.Some? ==> LevelName(r.value) == s
    ensures r.None? ==> forall l :: LevelName(l) != s
  {
    if s == "error" then Some(Error)
    else if s == "success" then Some(Success)
    else if s == "warning" then Some(Warning)
    else if s == "info" then Some(Info)
    else None
  }

  /** The class constants `NOTICE_ERROR`, `NOTICE_SUCCESS`, `NOTICE_WARNING`, `NOTICE_INFO`. */
  function CssClass(l: Level): string
  {
    match l
    case Error => "notice-error"
    case Success => "notice-success"
    case Warning => "notice-warning"
    case Info => "notice-info"
  }

  const DismissibleOpen := "<div class=\"notice "
  const DismissibleMiddle := " is-dismissible\"><p><b>License Manager</b>: "
  const Close := "</p></div>"

  /** `sprintf(MESSAGE_DISMISSIBLE, $cssClass, $message)`. */
  function Dismissible(cssClass: string, message: string): string
  {
    DismissibleOpen + cssClass + DismissibleMiddle + message + Close
  }

  /** `sprintf(MESSAGE_PERMANENT, $cssClass, $message)`; the class declares it but never prints it. */
  function Permanent(cssClass: string, message: string): string
  {
    DismissibleOpen + cssClass + "\"><p>" + message + Close
  }

  /** The dismissible fragment of a notice of level `l`. */
  function Fragment(l: Level, message: string): string
  {
    Dismissible(CssClass(l), message)
  }

  /** Everything a dismissible fragment of level `l` holds before its message. */
  function Head(l: Level): string
  {
    DismissibleOpen + CssClass(l) + DismissibleMiddle
  }

  /** `f` has the shape of a dismissible fragment of level `l`. */
  predicate Framed(f: string, l: Level)
  {
    |Head(l)| + |Close| <= |f| && f[..|Head(l)|] == Head(l) && f[|f| - |Close|..] == Close
  }

  /** The message of a fragment framed as level `l`. */
  function Between(f: string, l: Level): string
    requires Framed(f, l)
  {
    f[|Head(l)|..|f| - |Close|]
  }

  lemma FragmentIsHeadMessageClose(l: Level, m: string)
    ensures Fragment(l, m) == Head(l) + m + Close
  {
  }

  lemma FramedReassembles(f: string, l: Level)
    requires Framed(f, l)
    ensures Fragment(l, Between(f, l)) == f
  {
    var h, c := |Head(l)|, |Close|;
    assert f == f[..h] + f[h..|f| - c] + f[|f| - c..];
    FragmentIsHeadMessageClose(l, Between(f, l));
  }

  /**
    Reads a printed fragment back into its level and message: the partner of
    `Fragment`. Every decoded fragment is re-encoded to exactly the same text.
  */
  function Decode(f: string): (r: Option<(Level, string)>)
    ensures r.Some? ==> Fragment(r.value.0, r.value.1) == f
  {
    if Framed(f, Error) then FramedReassembles(f, Error); Some((Error, Between(f, Error)))
    else if Framed(f, Success) then FramedReassembles(f, Success); Some((Success, Between(f, Success)))
    else if Framed(f, Warning) then FramedReassembles(f, Warning); Some((Warning, Between(f, Warning)))
    else if Framed(f, Info) then FramedReassembles(f, Info); Some((Info, Between(f, Info)))
    else None
  }

  /** The first letter of the level name inside the class, which tells the four heads apart. */
  function Initial(l: Level): char
  {
    match l
    case Error => 'e'
    case Success => 's'
    case Warning => 'w'
    case Info => 'i'
  }

  lemma HeadInitial(l: Level)
    ensures 26 < |Head(l)| && Head(l)[26] == Initial(l)
  {
    assert |DismissibleOpen| == 19;
    match l
    case Error => assert CssClass(l)[7] == 'e';
    case Success => assert CssClass(l)[7] == 's';
    case Warning => assert CssClass(l)[7] == 'w';
    case Info => assert CssClass(l)[7] == 'i';
  }

  /** A fragment of level `l` is framed as no other level. */
  lemma FramedOnlyAsItsLevel(l: Level, k: Level, m: string)
    requires k != l
    ensures !Framed(Fragment(l, m), k)
  {
    var f := Fragment(l, m);
    FragmentIsHeadMessageClose(l, m);
    HeadInitial(l);
    HeadInitial(k);
    if |Head(k)| <= |f| {
      assert f[..|Head(k)|][26] == f[26] == Head(l)[26] != Head(k)[26];
    }
  }

  /** Decoding a printed fragment gives back its level and message. */
  lemma DecodeFragment(l: Level, m: string)
    ensures Decode(Fragment(l, m)) == Some((l, m))
  {
    var f := Fragment(l, m);
    FragmentIsHeadMessageClose(l, m);
    assert f[..|Head(l)|] == Head(l);
    assert f[|f| - |Close|..] == Close;
    assert Framed(f, l);
    assert Between(f, l) == m;
    forall k | k != l
      ensures !Framed(f, k)
    {
      FramedOnlyAsItsLevel(l, k, m);
    }
  }

  // ----- The `%d` conversion of `sprintf` -----

  predicate IsDigit(c: char)
  {
    '0' <= c <= '9'
  }

  predicate AllDigits(s: string)
  {
    forall i :: 0 <= i < |s| ==> IsDigit(s[i])
  }

  function DigitChar(d: nat): (c: char)
    requires d < 10
    ensures IsDigit(c) && c as int - '0' as int == d
  {
    ('0' as int + d) as char
  }

  /** The decimal digits of `n`: at least one digit, and no leading zero unless `n` is zero. */
  function NaturalDigits(n: nat): (r: string)
    ensures 1 <= |r| && AllDigits(r)
    ensures r[0] == '0' ==> n == 0
    decreases n
  {
    if n < 10 then [DigitChar(n)] else NaturalDigits(n / 10) + [DigitChar(n % 10)]
  }

  /** The value of a string of decimal digits. */
  function DigitsValue(s: string): nat
    requires AllDigits(s)
  {
    if s == [] then 0 else DigitsValue(s[..|s| - 1]) * 10 + (s[|s| - 1] as int - '0' as int)
  }

  lemma {:induction false} DigitsValueOfNaturalDigits(n: nat)
    ensures DigitsValue(NaturalDigits(n)) == n
    decreases n
  {
    if n >= 10 {
      var front := NaturalDigits(n / 10);
      var s := front + [DigitChar(n % 10)];
      assert s[..|s| - 1] == front;
      DigitsValueOfNaturalDigits(n / 10);
    }
  }

  /** Reads back an optional minus sign followed by one or more digits. */
  function ParseInt(s: string): Option<int>
  {
    if 2 <= |s| && s[0] == '-' && AllDigits(s[1..]) then Some(0 - DigitsValue(s[1..]) as int)
    else if 1 <= |s| && AllDigits(s) then Some(DigitsValue(s))
    else None
  }

  /** `sprintf('%d', $n)`: the decimal form of `n`, which reads back to `n`. */
  function FormatInt(n: int): (r: string)
    ensures ParseInt(r) == Some(n)
  {
    if n < 0 then
      var d := NaturalDigits(-n);
      DigitsValueOfNaturalDigits(-n);
      assert ("-" + d)[1..] == d;
      "-" + d
    else
      DigitsValueOfNaturalDigits(n);
      NaturalDigits(n)
  }
}
