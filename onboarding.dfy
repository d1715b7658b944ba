/**
 * The onboarding screen of App.tsx: step 1 asks for a name, step 2 for a
 * currency (pre-selected `RUB`), with a way back from step 2 to step 1.
 */
module Onboarding {

  /**
   * The characters `String.prototype.trim` removes: the ECMAScript
   * WhiteSpace set (tab, vertical tab, form feed, space, no-break space,
   * byte order mark and the other space separators) and the line terminators.
   */
  predicate IsWhitespace(c: char)
  {
    || c == '\t' || c == '\n' || c == '\U{000B}' || c == '\U{000C}' || c == '\r' || c == ' '
    || c == '\U{00A0}' || c == '\U{1680}' || ('\U{2000}' <= c <= '\U{200A}')
    || c == '\U{2028}' || c == '\U{2029}' || c == '\U{202F}' || c == '\U{205F}'
    || c == '\U{3000}' || c == '\U{FEFF}'
  }

  /** `s` without its leading whitespace. */
  function TrimStart(s: string): (r: string)
    ensures |r| <= |s| && r == s[|s| - |r|..]
    ensures forall i :: 0 <= i < |s| - |r| ==> IsWhitespace(s[i])
    ensures r == [] || !IsWhitespace(r[0])
  {
    if s == [] || !IsWhitespace(s[0]) then s else TrimStart(s[1..])
  }

  /** `s` without its trailing whitespace. */
  function TrimEnd(s: string): (r: string)
    ensures |r| <= |s| && r == s[..|r|]
    ensures forall i :: |r| <= i < |s| ==> IsWhitespace(s[i])
    ensures r == [] || !IsWhitespace(r[|r| - 1])
  {
    if s == [] || !IsWhitespace(s[|s| - 1]) then s else TrimEnd(s[..|s| - 1])
  }

  /** `s.trim()`: no longer than `s`, and neither starting nor ending with whitespace. */
  function Trim(s: string): (r: string)
    ensures |r| <= |s|
    ensures r == [] || (!IsWhitespace(r[0]) && !IsWhitespace(r[|r| - 1]))
  {
    TrimEnd(TrimStart(s))
  }

  /** `name.trim()` is falsy exactly when every character of the name is whitespace. */
  lemma TrimEmptyIffBlank(s: string)
    ensures Trim(s) == [] <==> forall i :: 0 <= i < |s| ==> IsWhitespace(s[i])
  {
    var t := TrimStart(s);
    if Trim(s) == [] {
      forall i | 0 <= i < |s| ensures IsWhitespace(s[i]) {
        if i >= |s| - |t| {
          assert s[i] == t[i - (|s| - |t|)];
        }
      }
    } else {
      var k := |s| - |t|;
      assert t != [] && !IsWhitespace(t[0]);
      assert s[k] == t[0];
    }
  }

  /** The screen's local state: the step, the name typed so far and the chosen currency. */
  class OnboardingScreen {
    var step: int
    var name: string
    var currency: string

    /** Step 2 can only be showing once a non-blank name has been typed. */
    ghost predicate Valid()
      reads this
    {
      (step == 1 || step == 2) && (step == 2 ==> Trim(name) != [])
    }

    constructor ()
      ensures Valid()
      ensures step == 1 && name == "" && currency == "RUB"
    {
      step, name, currency := 1, "", "RUB";
    }

    /** The name field's change handler (rendered in step 1). */
    method SetName(value: string)
      requires Valid() && step == 1
      modifies this
      ensures Valid()
      ensures step == 1 && name == value && currency == old(currency)
    {
      name := value;
    }

    /** The "next" button of step 1: it advances only when the trimmed name is non-empty. */
    method Next()
      requires Valid() && step == 1
      modifies this
      ensures Valid()
      ensures step == (if Trim(old(name)) != [] then 2 else 1)
      ensures name == old(name) && currency == old(currency)
    {
      if Trim(name) != [] {
        step := 2;
      }
    }

    /** A currency button of step 2. */
    method SelectCurrency(code: string)
      requires Valid() && step == 2
      modifies this
      ensures Valid()
      ensures step == 2 && name == old(name) && currency == code
    {
      currency := code;
    }

    /** The "back" button of step 2: returns to step 1 and keeps the typed name. */
    method Back()
      requires Valid() && step == 2
      modifies this
      ensures Valid()
      ensures step == 1 && name == old(name) && currency == old(currency)
    {
      step := 1;
    }

    /**
     * The "start" button of step 2: hands the name (untrimmed) and the
     * currency to the application. The name is never blank.
     */
    method Finish() returns (userName: string, code: string)
      requires Valid() && step == 2
      ensures userName == name && code == currency
      ensures Trim(userName) != []
    {
      userName, code := name, currency;
    }
  }
}
