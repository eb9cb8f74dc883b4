/** The workflow-name sanitizer (actions/gcp-workflows/src/main.go,
    sanitizeWorkflowName): lower-case, turn spaces and dots into hyphens,
    keep only `[a-z0-9_-]`, put `_` in front of a leading digit and cut the
    result to 63 characters. */
module NameSanitizer {
  import opened Strings

  /** The longest name the sanitizer returns. */
  const MaxNameLength: nat := 63

  /** The characters the rune filter keeps. */
  predicate IsNameChar(c: char)
  {
    ('a' <= c <= 'z') || ('0' <= c <= '9') || c == '_' || c == '-'
  }

  predicate IsDigit(c: char)
  {
    '0' <= c <= '9'
  }

  predicate AllNameChars(s: string)
  {
    forall i :: 0 <= i < |s| ==> IsNameChar(s[i])
  }

  /** The characters of `s` that the filter keeps, in their order. */
  function KeepNameChars(s: string): (kept: string)
    ensures |kept| <= |s|
    ensures AllNameChars(kept)
    ensures AllNameChars(s) ==> kept == s
    ensures kept == [] <==> forall i :: 0 <= i < |s| ==> !IsNameChar(s[i])
  {
    if s == [] then []
    else
      var last := s[|s| - 1];
      KeepNameChars(s[..|s| - 1]) + (if IsNameChar(last) then [last] else [])
  }

  /** The filter works piecewise: filtering a concatenation concatenates
      the filtered pieces. */
  lemma {:induction false} KeepNameCharsAppend(a: string, b: string)
    ensures KeepNameChars(a + b) == KeepNameChars(a) + KeepNameChars(b)
  {
    if b != [] {
      var b' := b[..|b| - 1];
      assert (a + b)[..|a + b| - 1] == a + b';
      KeepNameCharsAppend(a, b');
    } else {
      assert a + b == a;
    }
  }

  /** The lower-casing and hyphen replacement done before the filter. */
  function Normalized(name: string): string
  {
    ReplaceAll(ReplaceAll(ToLower(name), ' ', '-'), '.', '-')
  }

  /** `_` + a name that starts with a digit; any other name unchanged. */
  function GuardLeadingDigit(s: string): (g: string)
    ensures AllNameChars(s) ==> AllNameChars(g)
    ensures |g| > 0 ==> !IsDigit(g[0])
    ensures g == [] <==> s == []
  {
    if |s| > 0 && IsDigit(s[0]) then "_" + s else s
  }

  /** What sanitizeWorkflowName returns for `name`. */
  function Sanitized(name: string): (r: string)
    ensures AllNameChars(r)
    ensures |r| <= MaxNameLength
    ensures |r| > 0 ==> !IsDigit(r[0])
  {
    var guarded := GuardLeadingDigit(KeepNameChars(Normalized(name)));
    if |guarded| > MaxNameLength then guarded[..MaxNameLength] else guarded
  }

  /** sanitizeWorkflowName: the lower-casing and replacement passes, the
      rune loop appending every kept character, then the prefix and the cut. */
  method SanitizeWorkflowName(name: string) returns (sanitized: string)
    ensures sanitized == Sanitized(name)
  {
    var s := ToLower(name);
    s := ReplaceAll(s, ' ', '-');
    s := ReplaceAll(s, '.', '-');

    var result := "";
    var i := 0;
    while i < |s|
      invariant 0 <= i <= |s|
      invariant result == KeepNameChars(s[..i])
    {
      var r := s[i];
      if ('a' <= r <= 'z') || ('0' <= r <= '9') || r == '_' || r == '-' {
        result := result + [r];
      }
      assert s[..i + 1][..i] == s[..i];
      i := i + 1;
    }
    assert s[..i] == s;
    assert result == KeepNameChars(Normalized(name));

    sanitized := result;
    if |sanitized| > 0 && '0' <= sanitized[0] <= '9' {
      sanitized := "_" + sanitized;
    }
    if |sanitized| > 63 {
      sanitized := sanitized[..63];
    }
  }

  /** A string already made of name characters is not changed by the
      lower-casing and replacement passes. */
  lemma NormalizedFixesNameChars(s: string)
    requires AllNameChars(s)
    ensures Normalized(s) == s
  {
    var lowered := ToLower(s);
    assert lowered == s;
    assert ReplaceAll(lowered, ' ', '-') == s;
    assert ReplaceAll(s, '.', '-') == s;
  }

  /** Sanitizing a sanitized name changes nothing. */
  lemma SanitizeIdempotent(name: string)
    ensures Sanitized(Sanitized(name)) == Sanitized(name)
  {
    var once := Sanitized(name);
    NormalizedFixesNameChars(once);
    assert KeepNameChars(Normalized(once)) == once;
    assert GuardLeadingDigit(once) == once;
  }

  /** The sanitized name is empty exactly when no character survives the
      normalisation and the filter; the digit guard and the cut never empty it. */
  lemma SanitizedEmptyIff(name: string)
    ensures Sanitized(name) == "" <==>
      forall i :: 0 <= i < |Normalized(name)| ==> !IsNameChar(Normalized(name)[i])
  {
  }

  /** Sanitized, read off its three stages. */
  lemma SanitizedStages(name: string, normalized: string, kept: string, guarded: string)
    requires Normalized(name) == normalized && KeepNameChars(normalized) == kept
    requires GuardLeadingDigit(kept) == guarded && |guarded| <= MaxNameLength
    ensures Sanitized(name) == guarded
  {
  }

  /** The character the lower-casing and replacement passes turn `c` into. */
  function NormalizedChar(c: char): char
  {
    if c == ' ' || c == '.' then '-' else LowerChar(c)
  }

  /** The three passes act character by character: a space or a dot
      becomes a hyphen and an upper-case letter its lower-case form. */
  lemma NormalizedPointwise(name: string)
    ensures |Normalized(name)| == |name|
    ensures forall i :: 0 <= i < |name| ==> Normalized(name)[i] == NormalizedChar(name[i])
  {
    var lowered := ToLower(name);
    var dashed := ReplaceAll(lowered, ' ', '-');
    assert forall i :: 0 <= i < |name| ==> dashed[i] == (if name[i] == ' ' then '-' else LowerChar(name[i]));
  }

  /** A name made of name characters that starts with a digit only gains
      the `_` prefix (while it fits in 63 characters). */
  lemma DigitLedNameGuarded(name: string)
    requires AllNameChars(name) && 0 < |name| < MaxNameLength && IsDigit(name[0])
    ensures Sanitized(name) == "_" + name
  {
    NormalizedFixesNameChars(name);
  }

  /** A name already made of name characters, not starting with a digit
      and at most 63 characters long is returned unchanged. */
  lemma ValidNameUnchanged(name: string)
    requires AllNameChars(name) && |name| <= MaxNameLength
    requires |name| == 0 || !IsDigit(name[0])
    ensures Sanitized(name) == name
  {
    NormalizedFixesNameChars(name);
  }

  lemma NormalizedPayRoll()
    ensures Normalized("Pay Roll!") == "pay-roll!"
  {
    LowerPayRoll();
    DashPayRoll();
    NoDotPayRoll();
  }

  lemma LowerPayRoll()
    ensures ToLower("Pay Roll!") == "pay roll!"
  {
    var s, t := "Pay Roll!", "pay roll!";
    assert forall i :: 0 <= i < |s| ==> t[i] == LowerChar(s[i]);
  }

  lemma DashPayRoll()
    ensures ReplaceAll("pay roll!", ' ', '-') == "pay-roll!"
  {
    var s, t := "pay roll!", "pay-roll!";
    assert forall i :: 0 <= i < |s| ==> t[i] == (if s[i] == ' ' then '-' else s[i]);
  }

  lemma NoDotPayRoll()
    ensures ReplaceAll("pay-roll!", '.', '-') == "pay-roll!"
  {
    var s := "pay-roll!";
    ReplaceAbsent(s, '.', '-');
  }

  lemma KeepPayRoll()
    ensures KeepNameChars("pay-roll!") == "pay-roll"
  {
    KeepNameCharsAppend("pay-roll", "!");
    assert "pay-roll" + "!" == "pay-roll!";
  }

  /** The example `Pay Roll!` becomes `pay-roll`. */
  lemma PayRollExample()
    ensures Sanitized("Pay Roll!") == "pay-roll"
  {
    var name, normalized, kept := "Pay Roll!", "pay-roll!", "pay-roll";
    NormalizedPayRoll();
    KeepPayRoll();
    assert !IsDigit(kept[0]);
    SanitizedStages(name, normalized, kept, kept);
  }

  /** Only digits are guarded: a leading hyphen is kept, so the output does
      not always start with a letter or underscore. */
  lemma LeadingHyphenKept()
    ensures Sanitized("-job") == "-job"
  {
    var name := "-job";
    ValidNameUnchanged(name);
  }
}
