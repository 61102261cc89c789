/**
 * The input checks the sign-up screen runs before it calls the session
 * service (Screens/SignUp.js): the `validEmail` regular expression
 * `/^[^\s@]+@[^\s@]+\.[^\s@]+$/` and the cascade at the top of `handleSignUp`.
 */
module SignUpForm {
  import opened Js
  import WakeUp

  /**
   * A code point `\s` matches: the ECMAScript WhiteSpace code points (tab,
   * vertical tab, form feed, the byte order mark and the space separators)
   * and its LineTerminator code points.
   */
  predicate IsJsSpace(c: char) {
    || c == '\t' || c == '\n' || c == '\U{000B}' || c == '\U{000C}' || c == '\r' || c == ' '
    || c == '\U{00A0}' || c == '\U{1680}' || ('\U{2000}' <= c <= '\U{200A}')
    || c == '\U{2028}' || c == '\U{2029}' || c == '\U{202F}' || c == '\U{205F}'
    || c == '\U{3000}' || c == '\U{FEFF}'
  }

  /** `[^\s@]`. */
  predicate InClass(c: char) {
    !IsJsSpace(c) && c != '@'
  }

  /** `[^\s@]+` matching all of `s`. */
  predicate IsRun(s: string) {
    |s| > 0 && forall i :: 0 <= i < |s| ==> InClass(s[i])
  }

  /** The pattern matches `e` split as run `@` run `.` run, with the `@` at `i` and the `.` at `j`. */
  predicate SplitMatches(e: string, i: nat, j: nat) {
    && 0 < i < |e| && 0 < j < |e| && i + 1 < j && j + 1 < |e| && e[i] == '@' && e[j] == '.'
    && IsRun(e[..i]) && IsRun(e[i + 1..j]) && IsRun(e[j + 1..])
  }

  /** `validEmail(e)`: the anchored pattern matches at some split. */
  predicate ValidEmail(e: string): (ok: bool)
    ensures ok ==> 5 <= |e| && '@' in e && '.' in e
  {
    exists i: nat, j: nat | i < |e| && j < |e| :: SplitMatches(e, i, j)
  }

  function CountOf(s: string, c: char): nat
    decreases |s|
  {
    if s == [] then 0 else (if s[0] == c then 1 else 0) + CountOf(s[1..], c)
  }

  lemma {:induction false} CountOfAppend(a: string, b: string, c: char)
    ensures CountOf(a + b, c) == CountOf(a, c) + CountOf(b, c)
    decreases |a|
  {
    if a == [] {
      assert a + b == b;
    } else {
      assert (a + b)[0] == a[0];
      assert (a + b)[1..] == a[1..] + b;
      CountOfAppend(a[1..], b, c);
    }
  }

  lemma {:induction false} CountOfZero(s: string, c: char)
    ensures CountOf(s, c) == 0 <==> forall i :: 0 <= i < |s| ==> s[i] != c
    decreases |s|
  {
    if s != [] {
      CountOfZero(s[1..], c);
      assert forall i :: 1 <= i < |s| ==> s[i] == s[1..][i - 1];
    }
  }

  predicate NoSpace(e: string) {
    forall i :: 0 <= i < |e| ==> !IsJsSpace(e[i])
  }

  /** `s` has a `.` that is neither its first nor its last character. */
  predicate HasInnerDot(s: string) {
    exists j :: 0 < j < |s| - 1 && s[j] == '.'
  }

  /**
   * What the pattern accepts, in words: no whitespace, exactly one `@`, a
   * non-empty part before it, and a `.` inside the part after it.
   */
  lemma ValidEmailCharacterised(e: string)
    ensures ValidEmail(e) <==>
      && NoSpace(e)
      && CountOf(e, '@') == 1
      && 0 < FirstIndex(e, '@') < |e|
      && HasInnerDot(e[FirstIndex(e, '@') + 1..])
  {
    if ValidEmail(e) {
      var i: nat, j: nat :| i < |e| && j < |e| && SplitMatches(e, i, j);
      ValidEmailSplit(e, i, j);
    }
    if NoSpace(e) && CountOf(e, '@') == 1 && 0 < FirstIndex(e, '@') < |e| && HasInnerDot(e[FirstIndex(e, '@') + 1..]) {
      ValidEmailFromParts(e);
    }
  }

  /** The four conditions give a split the pattern matches. */
  lemma ValidEmailFromParts(e: string)
    requires NoSpace(e) && CountOf(e, '@') == 1 && 0 < FirstIndex(e, '@') < |e|
    requires HasInnerDot(e[FirstIndex(e, '@') + 1..])
    ensures ValidEmail(e)
  {
    var k := FirstIndex(e, '@');
    var s := e[k + 1..];
    var d :| 0 < d < |s| - 1 && s[d] == '.';
    var j := k + 1 + d;
    assert e[j] == s[d];
    NoAtAfterFirst(e);
    PartsAreRuns(e, k, j);
    assert SplitMatches(e, k, j);
  }

  /** Around the only `@` and a later `.`, the three stretches of a whitespace-free email are runs. */
  lemma PartsAreRuns(e: string, k: nat, j: nat)
    requires 0 < k && k + 1 < j && j + 1 < |e| && NoSpace(e)
    requires forall x :: 0 <= x < k ==> e[x] != '@'
    requires forall x :: k < x < |e| ==> e[x] != '@'
    ensures IsRun(e[..k]) && IsRun(e[k + 1..j]) && IsRun(e[j + 1..])
  {
    RunOfSlice(e, 0, k);
    RunOfSlice(e, k + 1, j);
    RunOfSlice(e, j + 1, |e|);
    assert e[j + 1..|e|] == e[j + 1..];
    assert e[0..k] == e[..k];
  }

  /** A stretch of an email without whitespace and without `@` is a run of the pattern. */
  lemma RunOfSlice(e: string, lo: nat, hi: nat)
    requires lo < hi <= |e|
    requires NoSpace(e)
    requires forall x :: lo <= x < hi ==> e[x] != '@'
    ensures IsRun(e[lo..hi])
  {
    var r := e[lo..hi];
    forall x | 0 <= x < |r| ensures InClass(r[x]) {
      assert r[x] == e[lo + x];
    }
  }

  /** The count of `c` in `e` is the count before position `k`, at it and after it. */
  lemma CountOfAround(e: string, k: nat, c: char)
    requires k < |e|
    ensures CountOf(e, c) == CountOf(e[..k], c) + (if e[k] == c then 1 else 0) + CountOf(e[k + 1..], c)
  {
    assert e == e[..k] + [e[k]] + e[k + 1..];
    assert [e[k]][1..] == [];
    CountOfAppend(e[..k] + [e[k]], e[k + 1..], c);
    CountOfAppend(e[..k], [e[k]], c);
  }

  /** When `@` occurs exactly once, nothing after its first position is an `@`. */
  lemma NoAtAfterFirst(e: string)
    requires CountOf(e, '@') == 1 && FirstIndex(e, '@') < |e|
    ensures forall x :: FirstIndex(e, '@') < x < |e| ==> e[x] != '@'
  {
    var k := FirstIndex(e, '@');
    var s := e[k + 1..];
    CountOfAround(e, k, '@');
    CountOfZero(s, '@');
    forall x | k < x < |e| ensures e[x] != '@' {
      assert e[x] == s[x - k - 1];
    }
  }

  /** A matching split has no whitespace anywhere and no `@` but the one at `i`. */
  lemma SplitCharacters(e: string, i: nat, j: nat)
    requires 0 < i && i + 1 < j && j + 1 < |e| && e[i] == '@' && e[j] == '.'
    requires IsRun(e[..i]) && IsRun(e[i + 1..j]) && IsRun(e[j + 1..])
    ensures forall x :: 0 <= x < |e| && x != i && x != j ==> InClass(e[x])
  {
    forall x | 0 <= x < |e| && x != i && x != j ensures InClass(e[x]) {
      if x < i {
        assert e[x] == e[..i][x];
      } else if x < j {
        assert e[x] == e[i + 1..j][x - i - 1];
      } else {
        assert e[x] == e[j + 1..][x - j - 1];
      }
    }
  }

  /** After the `@` of a matching split there is no other `@`. */
  lemma SplitTailHasNoAt(e: string, i: nat, j: nat)
    requires 0 < i && i + 1 < j && j + 1 < |e| && e[j] == '.'
    requires IsRun(e[i + 1..j]) && IsRun(e[j + 1..])
    ensures CountOf(e[i + 1..], '@') == 0
  {
    var t := e[i + 1..];
    var d := j - i - 1;
    CountOfAround(t, d, '@');
    assert t[..d] == e[i + 1..j];
    assert t[d + 1..] == e[j + 1..];
    CountOfZero(e[i + 1..j], '@');
    CountOfZero(e[j + 1..], '@');
  }

  /** The facts a matching split at `i` and `j` gives. */
  lemma ValidEmailSplit(e: string, i: nat, j: nat)
    requires SplitMatches(e, i, j)
    ensures NoSpace(e) && CountOf(e, '@') == 1 && FirstIndex(e, '@') == i && HasInnerDot(e[i + 1..])
  {
    SplitCharacters(e, i, j);
    SplitTailHasNoAt(e, i, j);
    CountOfZero(e[..i], '@');
    CountOfAround(e, i, '@');
    assert e[i + 1..][j - i - 1] == '.';
  }

  /** `password.length`: JavaScript counts UTF-16 code units, two for a code point above U+FFFF. */
  function Utf16Length(s: string): nat
    decreases |s|
  {
    if s == [] then 0 else (if s[0] as int > 0xFFFF then 2 else 1) + Utf16Length(s[1..])
  }

  /** The UTF-16 length lies between the number of code points and twice that, and equals it for text in the Basic Multilingual Plane. */
  lemma {:induction false} Utf16LengthBounds(s: string)
    ensures |s| <= Utf16Length(s) <= 2 * |s|
    ensures (forall i :: 0 <= i < |s| ==> s[i] as int <= 0xFFFF) ==> Utf16Length(s) == |s|
    decreases |s|
  {
    if s != [] {
      Utf16LengthBounds(s[1..]);
      assert forall i :: 1 <= i < |s| ==> s[1..][i - 1] == s[i];
    }
  }

  const MinPasswordLength: nat := 8
  const FillAllFieldsMessage := "Porfavor, llene todos los campos"
  const InvalidEmailMessage := "Porfavor, ingrese un email valido"
  const ShortPasswordMessage := "La contraseña debe tener al menos 8 caracteres"

  /** What `handleSignUp` does with the three fields before any network call. */
  datatype Verdict =
    | Rejected(alert: string)                  // an alert is shown and the handler returns
    | Submit(current: nat, total: nat)         // progress is set and AuthServices.signUp is called

  /** The if-chain with early returns at the top of `handleSignUp`. */
  function CheckSignUp(username: string, email: string, password: string): (v: Verdict)
    ensures v.Submit? <==>
      username != "" && email != "" && password != "" && ValidEmail(email) && Utf16Length(password) >= MinPasswordLength
    ensures (username == "" || email == "" || password == "") ==> v == Rejected(FillAllFieldsMessage)
    ensures username != "" && email != "" && password != "" && !ValidEmail(email) ==> v == Rejected(InvalidEmailMessage)
    ensures username != "" && password != "" && ValidEmail(email) && Utf16Length(password) < MinPasswordLength
      ==> v == Rejected(ShortPasswordMessage)
    ensures v.Submit? ==> v.current == 0 && v.total == WakeUp.MaxAttempts
  {
    if username == "" || email == "" || password == "" then Rejected(FillAllFieldsMessage)
    else if !ValidEmail(email) then Rejected(InvalidEmailMessage)
    else if Utf16Length(password) < MinPasswordLength then Rejected(ShortPasswordMessage)
    else Submit(0, 12)
  }

  /** Password length at the boundary: eight characters of ordinary text pass, seven do not. */
  lemma PasswordBoundary(username: string, email: string, password: string)
    requires username != "" && ValidEmail(email)
    requires forall i :: 0 <= i < |password| ==> password[i] as int <= 0xFFFF
    ensures |password| == 8 ==> CheckSignUp(username, email, password).Submit?
    ensures 0 < |password| < 8 ==> CheckSignUp(username, email, password) == Rejected(ShortPasswordMessage)
  {
    Utf16LengthBounds(password);
  }
}
