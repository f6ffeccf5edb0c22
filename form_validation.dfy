/**
 * `validateForm` of app.js (lines 200-223): every required `.form-input`
 * must have a value that is not blank after `trim()`, and an `email` input
 * with a value must match `^[^\s@]+@[^\s@]+\.[^\s@]+$`. Each input's border
 * is recoloured and the conjunction is returned.
 */
module FormValidation {

  /**
   * The code points ECMAScript treats as white space, both in the regular
   * expression class `\s` and in `String.prototype.trim`: TAB, VT, FF,
   * SPACE, NBSP, ZWNBSP, every other Space_Separator (U+1680, U+2000 to
   * U+200A, U+202F, U+205F, U+3000) and the line terminators LF, CR, LS, PS.
   */
  predicate IsWhitespace(c: char) {
    || c == '\t' || c == '\U{000B}' || c == '\U{000C}' || c == ' '
    || c == '\U{00A0}' || c == '\U{FEFF}' || c == '\U{1680}'
    || ('\U{2000}' <= c <= '\U{200A}')
    || c == '\U{202F}' || c == '\U{205F}' || c == '\U{3000}'
    || c == '\n' || c == '\r' || c == '\U{2028}' || c == '\U{2029}'
  }

  predicate AllWhitespace(s: string) {
    forall i :: 0 <= i < |s| ==> IsWhitespace(s[i])
  }

  /** The length of the longest all-white-space prefix. */
  function LeadingWhitespace(s: string): (n: nat)
    ensures n <= |s|
    ensures AllWhitespace(s[..n])
    ensures n < |s| ==> !IsWhitespace(s[n])
  {
    if s != [] && IsWhitespace(s[0]) then
      var n := 1 + LeadingWhitespace(s[1..]);
      assert s[..n] == [s[0]] + s[1..][..n - 1];
      n
    else 0
  }

  /** The length of the longest all-white-space suffix. */
  function TrailingWhitespace(s: string): (n: nat)
    ensures n <= |s|
    ensures AllWhitespace(s[|s| - n..])
    ensures n < |s| ==> !IsWhitespace(s[|s| - n - 1])
  {
    if s != [] && IsWhitespace(s[|s| - 1]) then
      var n := 1 + TrailingWhitespace(s[..|s| - 1]);
      assert s[|s| - n..] == s[..|s| - 1][|s| - n..] + [s[|s| - 1]];
      n
    else 0
  }

  /** `String.prototype.trim`: white space removed from both ends. */
  function Trim(s: string): (r: string)
    ensures r == [] <==> AllWhitespace(s)
    ensures r != [] ==> !IsWhitespace(r[0]) && !IsWhitespace(r[|r| - 1])
    ensures |r| <= |s|
    ensures exists a ::
      && 0 <= a && a + |r| <= |s| && r == s[a..a + |r|]
      && AllWhitespace(s[..a]) && AllWhitespace(s[a + |r|..])
  {
    var lead := LeadingWhitespace(s);
    if lead == |s| then
      assert s[..lead] == s;
      assert s[..0] == [] && s[0..] == s;
      []
    else
      var end := |s| - TrailingWhitespace(s);
      s[lead..end]
  }

  /** A character of the class `[^\s@]`. */
  predicate PlainChar(c: char) {
    !IsWhitespace(c) && c != '@'
  }

  /** A string matched by `[^\s@]+`. */
  predicate PlainRun(t: string) {
    |t| > 0 && forall i :: 0 <= i < |t| ==> PlainChar(t[i])
  }

  /**
   * One way of matching the whole of s against `^[^\s@]+@[^\s@]+\.[^\s@]+$`:
   * the literal `@` is at index `at` and the literal `.` at index `dot`.
   */
  ghost predicate EmailSplit(s: string, at: int, dot: int) {
    && 0 <= at < dot < |s|
    && s[at] == '@' && s[dot] == '.'
    && PlainRun(s[..at]) && PlainRun(s[at + 1..dot]) && PlainRun(s[dot + 1..])
  }

  /** The regular expression at app.js:214 matches s. */
  ghost predicate MatchesEmailRegex(s: string) {
    exists at, dot :: EmailSplit(s, at, dot)
  }

  /** The domain part has a `.` that is neither its first nor its last character. */
  predicate HasInnerDot(d: string) {
    exists j :: 0 < j < |d| - 1 && d[j] == '.'
  }

  /**
   * The test `emailRegex.test(value)` decides, stated without the regular
   * expression: no white space, exactly one `@`, a non-empty part before it,
   * and a domain after it with an inner `.`.
   */
  predicate EmailTest(s: string) {
    && (forall i :: 0 <= i < |s| ==> !IsWhitespace(s[i]))
    && exists at :: 0 < at < |s| && s[at] == '@'
         && (forall i :: 0 <= i < |s| && i != at ==> s[i] != '@')
         && HasInnerDot(s[at + 1..])
  }

  /** Whatever the executable test accepts, the regular expression matches. */
  lemma EmailTestImpliesRegex(s: string)
    requires EmailTest(s)
    ensures MatchesEmailRegex(s)
  {
    var at :| 0 < at < |s| && s[at] == '@'
      && (forall i :: 0 <= i < |s| && i != at ==> s[i] != '@')
      && HasInnerDot(s[at + 1..]);
    var d := s[at + 1..];
    var j :| 0 < j < |d| - 1 && d[j] == '.';
    var dot := at + 1 + j;
    var local, host, tld := s[..at], s[at + 1..dot], s[dot + 1..];
    forall i | 0 <= i < |local| ensures PlainChar(local[i]) {
      assert local[i] == s[i];
    }
    forall i | 0 <= i < |host| ensures PlainChar(host[i]) {
      assert host[i] == s[at + 1 + i];
    }
    forall i | 0 <= i < |tld| ensures PlainChar(tld[i]) {
      assert tld[i] == s[dot + 1 + i];
    }
    assert EmailSplit(s, at, dot);
  }

  /** Whatever the regular expression matches, the executable test accepts. */
  lemma RegexImpliesEmailTest(s: string)
    requires MatchesEmailRegex(s)
    ensures EmailTest(s)
  {
    var at, dot :| EmailSplit(s, at, dot);
    forall i | 0 <= i < |s| ensures !IsWhitespace(s[i]) && (i != at ==> s[i] != '@') {
      if i < at {
        assert s[..at][i] == s[i];
      } else if at < i < dot {
        assert s[at + 1..dot][i - at - 1] == s[i];
      } else if dot < i {
        assert s[dot + 1..][i - dot - 1] == s[i];
      }
    }
    var d := s[at + 1..];
    assert d[dot - at - 1] == '.';
    assert HasInnerDot(d);
  }

  /** The executable test and the regular expression accept the same strings. */
  lemma EmailTestMatchesRegex(s: string)
    ensures EmailTest(s) <==> MatchesEmailRegex(s)
  {
    if EmailTest(s) {
      EmailTestImpliesRegex(s);
    }
    if MatchesEmailRegex(s) {
      RegexImpliesEmailTest(s);
    }
  }

  const EmailType := "email"
  const InvalidBorder := "#EF4444"
  const ValidBorder := "#E5E7EB"

  /**
   * The verdict `validateForm` reaches for one input of the given `type` and
   * value: not blank, and a non-empty email value passes the email test.
   */
  predicate FieldValid(inputType: string, value: string) {
    && !AllWhitespace(value)
    && (inputType == EmailType && value != [] ==> EmailTest(value))
  }

  /**
   * An input passes exactly when its trimmed value is not empty and, if it
   * is an email input, its value matches the regular expression.
   */
  lemma FieldValidMeaning(inputType: string, value: string)
    ensures FieldValid(inputType, value) <==>
      && Trim(value) != []
      && (inputType == EmailType ==> MatchesEmailRegex(value))
  {
    EmailTestMatchesRegex(value);
  }

  /** The border colour `validateForm` leaves on an input. */
  function BorderFor(inputType: string, value: string): string {
    if FieldValid(inputType, value) then ValidBorder else InvalidBorder
  }

  /** A required `.form-input`: its `type`, its current value and its border colour. */
  class FormInput {
    const inputType: string
    var value: string
    var borderColor: string

    constructor (inputType: string, value: string)
      ensures this.inputType == inputType && this.value == value && borderColor == ""
    {
      this.inputType := inputType;
      this.value := value;
      borderColor := "";
    }
  }

  /**
   * The callback `validateForm` runs for each input, app.js:204-220: it
   * recolours the border and reports whether the input passed (the source
   * clears the shared `isValid` flag instead).
   */
  method CheckInput(input: FormInput) returns (passes: bool)
    modifies input
    ensures input.value == old(input.value)
    ensures input.borderColor == BorderFor(input.inputType, input.value)
    ensures passes == FieldValid(input.inputType, input.value)
  {
    passes := true;
    if Trim(input.value) == [] {
      input.borderColor := InvalidBorder;
      passes := false;
    } else {
      input.borderColor := ValidBorder;
    }
    if input.inputType == EmailType && input.value != [] {
      if !EmailTest(input.value) {
        input.borderColor := InvalidBorder;
        passes := false;
      }
    }
  }

  /**
   * `validateForm()` over the inputs `querySelectorAll('.form-input[required]')`
   * returns: every input gets the invalid colour exactly when it fails, and
   * the result is true exactly when all pass.
   */
  method ValidateForm(inputs: seq<FormInput>) returns (isValid: bool)
    modifies set input | input in inputs
    ensures forall k :: 0 <= k < |inputs| ==> inputs[k].value == old(inputs[k].value)
    ensures forall k :: 0 <= k < |inputs| ==>
      inputs[k].borderColor == BorderFor(inputs[k].inputType, inputs[k].value)
    ensures isValid <==> forall k :: 0 <= k < |inputs| ==> FieldValid(inputs[k].inputType, inputs[k].value)
  {
    isValid := true;
    var i := 0;
    while i < |inputs|
      invariant 0 <= i <= |inputs|
      invariant forall k :: 0 <= k < |inputs| ==> inputs[k].value == old(inputs[k].value)
      invariant forall k :: 0 <= k < i ==>
        inputs[k].borderColor == BorderFor(inputs[k].inputType, inputs[k].value)
      invariant isValid <==> forall k :: 0 <= k < i ==> FieldValid(inputs[k].inputType, inputs[k].value)
    {
      var passes := CheckInput(inputs[i]);
      isValid := isValid && passes;
      i := i + 1;
    }
  }
}
