/** The e-mail settings of the control panel: the address check the panel
    runs on every keystroke and on leaving the field, and the error it shows. */
module ControlPanel {
  import Text
  import App

  /** A character the address pattern `[^\s@]` accepts. */
  predicate Plain(c: char)
  {
    !Text.IsWhitespace(c) && c != '@'
  }

  predicate AllPlain(s: string)
  {
    forall k :: 0 <= k < |s| ==> Plain(s[k])
  }

  /** The address pattern `^[^\s@]+@[^\s@]+\.[^\s@]+$` as a decomposition: a
      non-empty local part, '@', a non-empty piece, '.', a non-empty piece,
      none of the three holding whitespace or '@'. */
  ghost predicate MatchesPattern(s: string)
  {
    exists i, j :: 0 < i && i + 1 < j && j + 1 < |s| && s[i] == '@' && s[j] == '.' &&
                   AllPlain(s[..i]) && AllPlain(s[i + 1..j]) && AllPlain(s[j + 1..])
  }

  /** A '.' with something on both sides of it. */
  predicate HasInnerDot(d: string)
  {
    exists j :: 0 < j < |d| - 1 && d[j] == '.'
  }

  /** The check computed field by field: no whitespace, exactly one '@' with
      something before it, and an inner '.' after it. */
  predicate EmailShaped(s: string)
  {
    && (forall k :: 0 <= k < |s| ==> !Text.IsWhitespace(s[k]))
    && '@' in s
    && var i := Text.IndexOf(s, '@');
       0 < i && '@' !in s[i + 1..] && HasInnerDot(s[i + 1..])
  }

  /** A stretch of plain characters is a plain piece. */
  lemma PlainSlice(s: string, lo: nat, hi: nat)
    requires lo <= hi <= |s|
    requires forall k :: lo <= k < hi ==> Plain(s[k])
    ensures AllPlain(s[lo..hi])
  {
    var p := s[lo..hi];
    forall k | 0 <= k < |p| ensures Plain(p[k]) {
      assert p[k] == s[lo + k];
    }
  }

  /** The characters of a plain piece are plain where they sit. */
  lemma SlicePlain(s: string, lo: nat, hi: nat)
    requires lo <= hi <= |s|
    requires AllPlain(s[lo..hi])
    ensures forall k :: lo <= k < hi ==> Plain(s[k])
  {
    var p := s[lo..hi];
    forall k | lo <= k < hi ensures Plain(s[k]) {
      assert s[k] == p[k - lo];
    }
  }

  lemma ShapedMatches(s: string)
    requires EmailShaped(s)
    ensures MatchesPattern(s)
  {
    var i := Text.IndexOf(s, '@');
    var d := s[i + 1..];
    var j' :| 0 < j' < |d| - 1 && d[j'] == '.';
    var j := i + 1 + j';
    assert s[j] == '.';
    forall k | 0 <= k < |s| && k != i ensures Plain(s[k]) {
      if k < i {
        assert s[k] == s[..i][k];
      } else {
        assert s[k] == d[k - (i + 1)];
      }
    }
    PlainSlice(s, 0, i);
    PlainSlice(s, i + 1, j);
    PlainSlice(s, j + 1, |s|);
    assert s[..i] == s[0..i];
    assert s[j + 1..] == s[j + 1..|s|];
  }

  /** The first '@' of a string whose earlier characters are all plain. */
  lemma FirstAt(s: string, i: nat)
    requires i < |s| && s[i] == '@'
    requires forall k :: 0 <= k < i ==> Plain(s[k])
    ensures '@' in s && Text.IndexOf(s, '@') == i
  {
    assert '@' in s;
  }

  /** The pieces of a match hold every character but the '@' and the '.'. */
  lemma MatchPieces(s: string, i: nat, j: nat)
    requires 0 < i && i + 1 < j && j + 1 < |s| && s[i] == '@' && s[j] == '.'
    requires AllPlain(s[..i]) && AllPlain(s[i + 1..j]) && AllPlain(s[j + 1..])
    ensures forall k :: 0 <= k < |s| && k != i && k != j ==> Plain(s[k])
  {
    assert s[..i] == s[0..i];
    assert s[j + 1..] == s[j + 1..|s|];
    SlicePlain(s, 0, i);
    SlicePlain(s, i + 1, j);
    SlicePlain(s, j + 1, |s|);
  }

  lemma MatchesShaped(s: string)
    requires MatchesPattern(s)
    ensures EmailShaped(s)
  {
    var i, j :| 0 < i && i + 1 < j && j + 1 < |s| && s[i] == '@' && s[j] == '.' &&
                AllPlain(s[..i]) && AllPlain(s[i + 1..j]) && AllPlain(s[j + 1..]);
    MatchPieces(s, i, j);
    assert forall k :: 0 <= k < |s| ==> !Text.IsWhitespace(s[k]) by {
      forall k | 0 <= k < |s| ensures !Text.IsWhitespace(s[k]) {
        if k != i && k != j {
          assert Plain(s[k]);
        }
      }
    }
    FirstAt(s, i);
    var d := s[i + 1..];
    assert HasInnerDot(d) by {
      assert d[j - (i + 1)] == '.';
    }
    assert '@' !in d by {
      forall k | 0 <= k < |d| ensures d[k] != '@' {
        assert d[k] == s[i + 1 + k];
      }
    }
  }

  /** The field-by-field check accepts exactly the strings the pattern
      matches. */
  lemma EmailShapedMatches(s: string)
    ensures EmailShaped(s) <==> MatchesPattern(s)
  {
    if EmailShaped(s) {
      ShapedMatches(s);
    }
    if MatchesPattern(s) {
      MatchesShaped(s);
    }
  }

  /** `validateEmail`: the empty address is accepted (e-mail alerts then do
      nothing); any other address must match the pattern. */
  function ValidateEmail(email: string): (r: (bool, string))
  {
    if email != "" && !EmailShaped(email) then (false, "Invalid email address") else (true, "")
  }

  lemma ValidateEmailRule(email: string)
    ensures ValidateEmail(email).0 <==> email == "" || MatchesPattern(email)
    ensures ValidateEmail(email).1 == if ValidateEmail(email).0 then "" else "Invalid email address"
    ensures ValidateEmail("").0
  {
    EmailShapedMatches(email);
  }

  /** A valid non-empty address holds no whitespace, exactly one '@' with
      something before it, and after it a '.' with text on both sides. */
  lemma ValidAddressShape(e: string)
    requires e != "" && ValidateEmail(e).0
    ensures forall k :: 0 <= k < |e| ==> !Text.IsWhitespace(e[k])
    ensures exists i, j :: 0 < i && i + 1 < j && j + 1 < |e| && e[i] == '@' && e[j] == '.' &&
                           forall k :: 0 <= k < |e| && k != i ==> e[k] != '@'
  {
    ShapedMatches(e);
    var i, j :| 0 < i && i + 1 < j && j + 1 < |e| && e[i] == '@' && e[j] == '.' &&
                AllPlain(e[..i]) && AllPlain(e[i + 1..j]) && AllPlain(e[j + 1..]);
    MatchPieces(e, i, j);
  }

  /** An address of the usual shape passes. */
  lemma AcceptsUsualAddress()
    ensures ValidateEmail("ops@example.com").0
  {
    var good := "ops@example.com";
    assert good[..3] == "ops" && good[4..11] == "example" && good[12..] == "com";
    assert AllPlain("ops") && AllPlain("example") && AllPlain("com");
    assert good[3] == '@' && good[11] == '.';
    MatchesShaped(good);
  }

  /** An address without a '.' after its '@' fails. */
  lemma RejectsDotlessDomain()
    ensures !ValidateEmail("ops@example").0
  {
    var bare := "ops@example";
    FirstAt(bare, 3);
    assert bare[4..] == "example";
    assert !HasInnerDot("example");
  }

  /** An address holding a space fails. */
  lemma RejectsSpace()
    ensures !ValidateEmail("ops @example.com").0
  {
    assert Text.IsWhitespace("ops @example.com"[3]);
  }

  /** The e-mail popup's own state: the error shown under the address. The
      address itself is the supervisor's. */
  class EmailSettings {
    var emailError: string

    constructor ()
      ensures emailError == ""
    {
      emailError := "";
    }

    /** `validateEmail` on leaving the field: only the error changes. */
    method Validate(email: string) returns (ok: bool)
      modifies this`emailError
      ensures (ok, emailError) == ValidateEmail(email)
    {
      ok := ValidateEmail(email).0;
      emailError := ValidateEmail(email).1;
    }

    /** `handleEmailChange`: the address is stored whether or not it passes;
        the check only sets the error. */
    method HandleEmailChange(owner: App.Supervisor, newEmail: string)
      modifies owner`emailAddress, this`emailError
      ensures owner.emailAddress == newEmail
      ensures emailError == ValidateEmail(newEmail).1
    {
      owner.SetEmailAddress(newEmail);
      var _ := Validate(newEmail);
    }
  }
}
