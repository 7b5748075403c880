/** The two email-shape rules of the forms. They are hand-written regular
    expressions, not an email grammar, and they differ. */
module EmailRules {
  import opened Strings

  /** `\S+`: one or more characters, none of them white space. */
  predicate NonSpaceRun(t: string) {
    |t| > 0 && forall k :: 0 <= k < |t| ==> !IsSpace(t[k])
  }

  /** `[^\s@]+`: one or more characters, none white space and none `@`. */
  predicate NonSpaceNonAtRun(t: string) {
    |t| > 0 && forall k :: 0 <= k < |t| ==> !IsSpace(t[k]) && t[k] != '@'
  }

  /** `^\S+@\S+\.\S+$`, the rule of the creator-profile wizard: the string
      splits at some `@` and some later `.` into three runs without white
      space. The runs may themselves hold `@` and `.`. */
  predicate LooseEmail(s: string) {
    exists i, j | 0 <= i < j < |s| :: LooseSplit(s, i, j)
  }

  /** The `@` at `i` and the `.` at `j` split `s` as the loose rule asks. */
  predicate LooseSplit(s: string, i: int, j: int) {
    0 <= i < j < |s| && s[i] == '@' && s[j] == '.'
    && NonSpaceRun(s[..i]) && NonSpaceRun(s[i + 1..j]) && NonSpaceRun(s[j + 1..])
  }

  /** `^[^\s@]+@[^\s@]+\.[^\s@]+$`, the rule of registration and sign-in: as
      above, but no run may hold an `@`. */
  predicate StrictEmail(s: string) {
    exists i, j | 0 <= i < j < |s| :: StrictSplit(s, i, j)
  }

  /** The `@` at `i` and the `.` at `j` split `s` as the strict rule asks. */
  predicate StrictSplit(s: string, i: int, j: int) {
    0 <= i < j < |s| && s[i] == '@' && s[j] == '.'
    && NonSpaceNonAtRun(s[..i]) && NonSpaceNonAtRun(s[i + 1..j]) && NonSpaceNonAtRun(s[j + 1..])
  }

  /** Every character of a matching string is something other than white space. */
  lemma LooseEmailHasNoSpace(s: string)
    requires LooseEmail(s)
    ensures forall k :: 0 <= k < |s| ==> !IsSpace(s[k])
  {
    var i, j :| 0 <= i < j < |s| && LooseSplit(s, i, j);
    forall k | 0 <= k < |s| ensures !IsSpace(s[k]) {
      if k < i {
        assert s[k] == s[..i][k];
      } else if i < k < j {
        assert s[k] == s[i + 1..j][k - i - 1];
      } else if j < k {
        assert s[k] == s[j + 1..][k - j - 1];
      }
    }
  }

  /** A string that passes the loose rule is never blank after trimming. */
  lemma LooseEmailHasText(s: string)
    requires LooseEmail(s)
    ensures HasText(s) && !IsBlank(s)
  {
    LooseEmailHasNoSpace(s);
    assert !IsSpace(s[0]);
    BlankIffNoText(s);
  }

  /** The strict rule accepts only strings the loose rule accepts. */
  lemma StrictImpliesLoose(s: string)
    requires StrictEmail(s)
    ensures LooseEmail(s)
  {
    var i, j :| 0 <= i < j < |s| && StrictSplit(s, i, j);
    assert LooseSplit(s, i, j);
  }

  /** A matching string has exactly one `@` under the strict rule. */
  lemma StrictEmailSingleAt(s: string, a: int)
    requires StrictEmail(s)
    requires 0 <= a < |s| && s[a] == '@'
    ensures forall k :: 0 <= k < |s| && s[k] == '@' ==> k == a
  {
    var i, j :| 0 <= i < j < |s| && StrictSplit(s, i, j);
    assert forall k :: 0 <= k < |s| && s[k] == '@' ==> k == i;
  }

  /** The rules differ: a second `@` passes the loose rule and fails the strict one. */
  lemma SecondAtSeparatesRules()
    ensures LooseEmail("a@b@c.d")
    ensures !StrictEmail("a@b@c.d")
  {
    var s := "a@b@c.d";
    assert s[..1] == "a" && s[2..5] == "b@c" && s[6..] == "d";
    assert LooseSplit(s, 1, 5);
    assert s[1] == '@' && s[3] == '@';
    if StrictEmail(s) {
      StrictEmailSingleAt(s, 1);
    }
  }

  /** Both rules test the untrimmed value, so a leading or trailing space
      makes an otherwise well-formed address fail. */
  lemma PaddedEmailFails(s: string)
    ensures !LooseEmail(" " + s) && !LooseEmail(s + " ")
    ensures !StrictEmail(" " + s) && !StrictEmail(s + " ")
  {
    var p, q := " " + s, s + " ";
    assert IsSpace(p[0]) && IsSpace(q[|q| - 1]);
    if LooseEmail(p) { LooseEmailHasNoSpace(p); }
    if LooseEmail(q) { LooseEmailHasNoSpace(q); }
    if StrictEmail(p) { StrictImpliesLoose(p); LooseEmailHasNoSpace(p); }
    if StrictEmail(q) { StrictImpliesLoose(q); LooseEmailHasNoSpace(q); }
  }

  lemma WellFormedAddressPassesBoth()
    ensures StrictEmail("jane@example.org") && LooseEmail("jane@example.org")
  {
    var s := "jane@example.org";
    assert s[..4] == "jane" && s[5..12] == "example" && s[13..] == "org";
    assert StrictSplit(s, 4, 12);
    StrictImpliesLoose(s);
  }

  lemma NotAnEmailFailsBoth()
    ensures !LooseEmail("not-an-email") && !StrictEmail("not-an-email")
  {
    var s := "not-an-email";
    assert forall k :: 0 <= k < |s| ==> s[k] != '@';
    WithoutAtFailsBoth(s);
  }

  /** Both rules need an `@`. */
  lemma WithoutAtFailsBoth(s: string)
    requires forall k :: 0 <= k < |s| ==> s[k] != '@'
    ensures !LooseEmail(s) && !StrictEmail(s)
  {
    if StrictEmail(s) { StrictImpliesLoose(s); }
  }
}
