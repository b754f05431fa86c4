/**
 * models/validate.go: the messages for failed validation tags, the wrapping
 * of the validator library's field errors, and the two custom validators
 * (`passwd` and the two-element location check). Which struct fields fail
 * which tags is decided inside the validator library and enters the model
 * as the list of field errors it reports.
 */
module Validate {
  import opened Wrappers
  import Text
  import Unicode

  /** validator.FieldError as far as Error() reads it. */
  datatype FieldError = FieldError(field: string, tag: string, param: string)

  /** The tags Error() has a message for. */
  predicate KnownTag(tag: string)
  {
    tag in ["required", "min", "max", "email", "numeric", "passwd"]
  }

  const PasswdHint := " should have Minimum eight characters, at least one uppercase letter, one lowercase letter, one number and one special character"

  /** ValidationError.Error(). */
  function Message(v: FieldError): string
  {
    match v.tag
    case "required" => v.field + " is required"
    case "min" => v.field + " should be atleast " + v.param + " charactars"
    case "max" => v.field + " should be atmost " + v.param + " charactars"
    case "email" => "Enter a valid " + v.field
    case "numeric" => v.field + " should only have numeric"
    case "passwd" => v.field + PasswdHint
    case _ => ""
  }

  /** A message exists exactly for the known tags, and it names the failing field. */
  lemma MessageNamesField(v: FieldError)
    ensures Message(v) != "" <==> KnownTag(v.tag)
    ensures KnownTag(v.tag) ==> Text.Contains(Message(v), v.field)
  {
    var m := Message(v);
    if v.tag == "email" {
      assert m[|"Enter a valid "|..] == v.field;
      assert Text.OccursAt(m, v.field, |"Enter a valid "|);
    } else if KnownTag(v.tag) {
      assert m[..|v.field|] == v.field;
      assert Text.OccursAt(m, v.field, 0);
    }
  }

  /** ValidationErrors.Errors(): one message per error, in order. */
  method Errors(v: seq<FieldError>) returns (errs: seq<string>)
    ensures |errs| == |v|
    ensures forall i :: 0 <= i < |v| ==> errs[i] == Message(v[i])
  {
    errs := [];
    var i := 0;
    while i < |v|
      invariant 0 <= i <= |v|
      invariant |errs| == i
      invariant forall j :: 0 <= j < i ==> errs[j] == Message(v[j])
    {
      var m := Message(v[i]);
      errs := errs + [m];
      i := i + 1;
    }
  }

  /**
   * Validation.Struct: `errs` is what validator.Struct reported. No error
   * gives nil (None); otherwise every field error is wrapped, in order.
   */
  method Struct(errs: seq<FieldError>) returns (r: Option<seq<FieldError>>)
    ensures r.None? <==> errs == []
    ensures r.Some? ==> r.value == errs
  {
    if errs == [] {
      return None;
    }
    var returnErrs: seq<FieldError> := [];
    var i := 0;
    while i < |errs|
      invariant 0 <= i <= |errs|
      invariant returnErrs == errs[..i]
    {
      returnErrs := returnErrs + [errs[i]];
      i := i + 1;
    }
    return Some(returnErrs);
  }

  // ---- The rune classes Passwd's switch tests (Unicode 15.0.0 general categories) ----

  /** unicode.IsUpper (Lu). */
  predicate IsUpper(c: char) { Unicode.ClassOf(c) == Unicode.Upper }

  /** unicode.IsLower (Ll). */
  predicate IsLower(c: char) { Unicode.ClassOf(c) == Unicode.Lower }

  /** unicode.IsNumber (N). */
  predicate IsNumber(c: char) { Unicode.ClassOf(c) == Unicode.Number }

  /** unicode.IsPunct (P). */
  predicate IsPunct(c: char) { Unicode.ClassOf(c) == Unicode.Punct }

  /** unicode.IsSymbol (S). */
  predicate IsSymbol(c: char) { Unicode.ClassOf(c) == Unicode.Symbol }

  /** Passwd's last case: a punctuation or symbol rune. */
  predicate IsSpecial(c: char) { IsPunct(c) || IsSymbol(c) }

  /** What the `passwd` tag promises: at least eight bytes and one character of each kind. */
  ghost predicate StrongPassword(s: string)
  {
    Text.ByteLength(s) >= 8
    && (exists i :: 0 <= i < |s| && IsUpper(s[i]))
    && (exists i :: 0 <= i < |s| && IsLower(s[i]))
    && (exists i :: 0 <= i < |s| && IsNumber(s[i]))
    && (exists i :: 0 <= i < |s| && IsSpecial(s[i]))
  }

  /** The `passwd` validator: flags set by one pass over the runes. */
  method Passwd(s: string) returns (ok: bool)
    ensures ok <==> StrongPassword(s)
  {
    var hasMinLen, hasUpper, hasLower, hasNumber, hasSpecial := false, false, false, false, false;
    if Text.ByteLength(s) >= 8 {
      hasMinLen := true;
    }
    var i := 0;
    while i < |s|
      invariant 0 <= i <= |s|
      invariant hasUpper <==> exists j :: 0 <= j < i && IsUpper(s[j])
      invariant hasLower <==> exists j :: 0 <= j < i && IsLower(s[j])
      invariant hasNumber <==> exists j :: 0 <= j < i && IsNumber(s[j])
      invariant hasSpecial <==> exists j :: 0 <= j < i && IsSpecial(s[j])
    {
      var k := Unicode.ClassOf(s[i]);
      if k == Unicode.Upper {
        hasUpper := true;
      } else if k == Unicode.Lower {
        hasLower := true;
      } else if k == Unicode.Number {
        hasNumber := true;
      } else if k == Unicode.Punct || k == Unicode.Symbol {
        hasSpecial := true;
      }
      i := i + 1;
    }
    ok := hasMinLen && hasUpper && hasLower && hasNumber && hasSpecial;
  }

  /**
   * Runes outside Latin-1 count: a Greek capital sigma is an upper-case
   * letter and the euro sign a symbol.
   */
  lemma NonLatinPasswords()
    ensures StrongPassword("\U{3A3}abcdef1!")
    ensures StrongPassword("abcdefG1\U{20AC}")
  {
    SigmaPassword();
    EuroPassword();
  }

  lemma SigmaPassword()
    ensures StrongPassword("\U{3A3}abcdef1!")
  {
    var p := "\U{3A3}abcdef1!";
    assert Unicode.Lookup(Unicode.Classes, 0x3A3) == Unicode.Upper;
    AsciiClasses();
    assert p[0] == '\U{3A3}' && p[1] == 'a' && p[7] == '1' && p[8] == '!';
    StrongFrom(p, 0, 1, 7, 8);
  }

  lemma EuroPassword()
    ensures StrongPassword("abcdefG1\U{20AC}")
  {
    var q := "abcdefG1\U{20AC}";
    assert Unicode.Lookup(Unicode.Classes, 0x20AC) == Unicode.Symbol;
    AsciiClasses();
    assert q[6] == 'G' && q[0] == 'a' && q[7] == '1' && q[8] == '\U{20AC}';
    StrongFrom(q, 6, 0, 7, 8);
  }

  lemma AsciiClasses()
    ensures IsUpper('G') && IsLower('a') && IsNumber('1') && IsPunct('!')
  {
    assert Unicode.Lookup(Unicode.Classes, 0x47) == Unicode.Upper;
    assert Unicode.Lookup(Unicode.Classes, 0x61) == Unicode.Lower;
    assert Unicode.Lookup(Unicode.Classes, 0x31) == Unicode.Number;
    assert Unicode.Lookup(Unicode.Classes, 0x21) == Unicode.Punct;
  }

  /** Eight characters and one witness of each kind make a strong password. */
  lemma StrongFrom(s: string, i: nat, j: nat, k: nat, l: nat)
    requires |s| >= 8 && i < |s| && j < |s| && k < |s| && l < |s|
    requires IsUpper(s[i]) && IsLower(s[j]) && IsNumber(s[k]) && IsSpecial(s[l])
    ensures StrongPassword(s)
  {
  }

  /** A field value as LocationValidation sees it: a []string, or anything else. */
  datatype FieldValue = StringList(items: seq<string>) | OtherValue

  /** LocationValidation: a []string holding exactly two entries. */
  function LocationValidation(v: FieldValue): (ok: bool)
    ensures ok <==> v.StringList? && |v.items| == 2
  {
    match v
    case StringList(items) => |items| == 2
    case OtherValue => false
  }
}
