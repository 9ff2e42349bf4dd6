/** Replacing the secrets of an environment in the output of a gate command. */
module Redactor {
  import opened Wrappers
  import opened Ascii

  const MARK := "[REDACTED]"

  predicate OccursAt(s: string, text: string, i: nat) {
    i + |s| <= |text| && text[i..i + |s|] == s
  }

  ghost predicate Occurs(s: string, text: string) {
    exists i: nat :: OccursAt(s, text, i)
  }

  /** `text.replaceAll(secret, MARK)`: leftmost occurrences first, none overlapping. */
  function ReplaceAll(text: string, secret: string): string
    requires secret != ""
  {
    if |text| < |secret| then text
    else if secret <= text then MARK + ReplaceAll(text[|secret|..], secret)
    else [text[0]] + ReplaceAll(text[1..], secret)
  }

  ghost predicate Nonempty(secrets: seq<string>) {
    forall i :: 0 <= i < |secrets| ==> secrets[i] != ""
  }

  function Redact(text: string, secrets: seq<string>): string
    requires Nonempty(secrets)
  {
    if secrets == [] then text
    else ReplaceAll(Redact(text, secrets[..|secrets| - 1]), secrets[|secrets| - 1])
  }

  predicate HasBracket(s: string) {
    '[' in s || ']' in s
  }

  /** No beginning of the text is an end of the mark. */
  ghost predicate HeadApart(w: string) {
    forall k :: 0 < k <= |w| && k <= |MARK| ==> w[..k] != MARK[|MARK| - k..]
  }

  /** No end of the text is a beginning of the mark, and the mark is not in it. */
  ghost predicate TailApart(w: string) {
    && (forall k :: 0 < k <= |w| && k <= |MARK| ==> w[|w| - k..] != MARK[..k])
    && !Occurs(MARK, w)
  }

  /** A text that never overlaps a mark beside it; it may still be a part from within the mark. */
  ghost predicate Apart(w: string) {
    w != "" && HeadApart(w) && TailApart(w)
  }

  ghost predicate MarkProof(secret: string) {
    Apart(secret) && !Occurs(secret, MARK)
  }

  lemma OccurrenceAt(s: string, text: string, i: nat, k: nat)
    requires OccursAt(s, text, i) && k < |s|
    ensures text[i + k] == s[k]
  {
    assert text[i..i + |s|][k] == text[i + k];
  }

  /** Without brackets a text is apart from the mark, and in it only if it is in the mark's word. */
  lemma BracketFreeIsApart(w: string)
    requires w != "" && !HasBracket(w)
    ensures Apart(w) && (Occurs(w, MARK) <==> Occurs(w, "REDACTED"))
  {
    assert MARK[0] == '[' && MARK[9] == ']' && |MARK| == 10;
    forall k | 0 < k <= |w| && k <= |MARK| ensures w[..k] != MARK[|MARK| - k..] {
      assert w[..k][k - 1] == w[k - 1] && w[k - 1] in w && MARK[|MARK| - k..][k - 1] == ']';
    }
    forall k | 0 < k <= |w| && k <= |MARK| ensures w[|w| - k..] != MARK[..k] {
      assert w[|w| - k..][0] == w[|w| - k] && w[|w| - k] in w && MARK[..k][0] == '[';
    }
    if i: nat :| OccursAt(MARK, w, i) { MarkHasBracket(w, i); }
    WithinWord(w);
  }

  lemma MarkHasBracket(w: string, i: nat)
    requires OccursAt(MARK, w, i)
    ensures HasBracket(w)
  {
    OccurrenceAt(MARK, w, i, 0);
    assert w[i] in w;
  }

  lemma InsideBrackets(body: string, w: string, i: nat)
    requires w != "" && !HasBracket(w) && OccursAt(w, ['['] + body + [']'], i)
    ensures Occurs(w, body)
  {
    var n := |body| + 1;
    var all := ['['] + body + [']'];
    assert all[0] == '[' && all[n] == ']';
    assert forall j :: i <= j < i + |w| ==> all[j] == w[j - i] && all[j] in w;
    assert 0 < i && i + |w| <= n;
    assert body[i - 1..i - 1 + |w|] == w;
    assert OccursAt(w, body, i - 1);
  }

  lemma WithinWord(w: string)
    requires w != "" && !HasBracket(w)
    ensures Occurs(w, MARK) <==> Occurs(w, "REDACTED")
  {
    assert MARK == ['['] + "REDACTED" + [']'];
    assert MARK[1..9] == "REDACTED";
    if i: nat :| OccursAt(w, MARK, i) { InsideBrackets("REDACTED", w, i); }
    if i: nat :| OccursAt(w, "REDACTED", i) { OccursInside(w, "REDACTED", MARK, i, 1); }
  }

  // ----- one replacement -----

  lemma TailStaysApart(w: string)
    requires TailApart(w) && w != ""
    ensures TailApart(w[1..])
  {
    var v := w[1..];
    forall k | 0 < k <= |v| && k <= |MARK| ensures v[|v| - k..] != MARK[..k] {
      assert v[|v| - k..] == w[|w| - k..];
    }
    if i: nat :| OccursAt(MARK, v, i) { OccursInSuffix(MARK, w, 1, i); }
  }

  lemma AheadIsMark(w: string, rest: string)
    requires w <= MARK + rest
    ensures |w| <= |MARK| ==> w[|w| - |w|..] == MARK[..|w|]
    ensures |w| >= |MARK| ==> OccursAt(MARK, w, 0)
  {
    assert w == (MARK + rest)[..|w|];
    if |w| >= |MARK| { assert w[0..|MARK|] == MARK; }
  }

  lemma NoMarkAhead(w: string, rest: string)
    requires TailApart(w) && w <= MARK + rest
    ensures w == ""
  {
    AheadIsMark(w, rest);
  }

  lemma {:induction false} PrefixSurvives(text: string, secret: string, w: string)
    requires secret != "" && TailApart(w)
    requires w <= ReplaceAll(text, secret)
    ensures w <= text
  {
    if |text| >= |secret| {
      if secret <= text {
        NoMarkAhead(w, ReplaceAll(text[|secret|..], secret));
      } else if w != "" {
        var rest := ReplaceAll(text[1..], secret);
        assert w[1..] <= rest by { assert w[1..] == ([text[0]] + rest)[1..|w|]; }
        TailStaysApart(w);
        PrefixSurvives(text[1..], secret, w[1..]);
        assert w == [w[0]] + w[1..];
      }
    }
  }

  lemma AcrossMarkEnd(w: string, rest: string, i: nat)
    requires OccursAt(w, MARK + rest, i) && i < |MARK| < i + |w|
    ensures w[..|MARK| - i] == MARK[i..]
  {
    var all := MARK + rest;
    assert all[i..i + |w|][..|MARK| - i] == all[i..|MARK|] == MARK[i..];
  }

  lemma InsideMark(w: string, rest: string, i: nat)
    requires Apart(w) && OccursAt(w, MARK + rest, i) && i < |MARK|
    ensures Occurs(w, MARK)
  {
    if i + |w| <= |MARK| {
      assert MARK[i..i + |w|] == (MARK + rest)[i..i + |w|];
      assert OccursAt(w, MARK, i);
    } else {
      AcrossMarkEnd(w, rest, i);
      assert false;
    }
  }

  lemma OccursShift(w: string, front: string, rest: string, i: nat)
    requires OccursAt(w, front + rest, i) && i >= |front|
    ensures OccursAt(w, rest, i - |front|)
  {
    assert (front + rest)[i..i + |w|] == rest[i - |front|..i - |front| + |w|];
  }

  lemma OccursInSuffix(w: string, text: string, k: nat, i: nat)
    requires k <= |text| && OccursAt(w, text[k..], i)
    ensures OccursAt(w, text, k + i)
  {
    assert text[k..][i..i + |w|] == text[k + i..k + i + |w|];
  }

  /** A replacement creates no text apart from the mark: what occurs afterwards occurred before, or in the mark. */
  lemma {:induction false} NothingCreated(text: string, secret: string, w: string, i: nat)
    requires secret != "" && Apart(w)
    requires OccursAt(w, ReplaceAll(text, secret), i)
    ensures Occurs(w, text) || Occurs(w, MARK)
    decreases |text|
  {
    if |text| < |secret| {
    } else if secret <= text {
      var rest := ReplaceAll(text[|secret|..], secret);
      if i < |MARK| {
        InsideMark(w, rest, i);
      } else {
        OccursShift(w, MARK, rest, i);
        NothingCreated(text[|secret|..], secret, w, i - |MARK|);
        if j: nat :| OccursAt(w, text[|secret|..], j) { OccursInSuffix(w, text, |secret|, j); }
      }
    } else {
      var rest := ReplaceAll(text[1..], secret);
      if i == 0 {
        assert w <= ReplaceAll(text, secret);
        PrefixSurvives(text, secret, w);
        assert OccursAt(w, text, 0);
      } else {
        OccursShift(w, [text[0]], rest, i);
        NothingCreated(text[1..], secret, w, i - 1);
        if j: nat :| OccursAt(w, text[1..], j) { OccursInSuffix(w, text, 1, j); }
      }
    }
  }

  /** A mark-proof secret does not occur in a text from which it has been replaced. */
  lemma {:induction false} OwnSecretGone(text: string, secret: string, i: nat)
    requires MarkProof(secret)
    ensures !OccursAt(secret, ReplaceAll(text, secret), i)
    decreases |text|
  {
    if OccursAt(secret, ReplaceAll(text, secret), i) {
      if |text| < |secret| {
        assert false;
      } else if secret <= text {
        var rest := ReplaceAll(text[|secret|..], secret);
        if i < |MARK| {
          InsideMark(secret, rest, i);
        } else {
          OccursShift(secret, MARK, rest, i);
          OwnSecretGone(text[|secret|..], secret, i - |MARK|);
        }
        assert false;
      } else if i == 0 {
        PrefixSurvives(text, secret, secret);
        assert false;
      } else {
        OccursShift(secret, [text[0]], ReplaceAll(text[1..], secret), i);
        OwnSecretGone(text[1..], secret, i - 1);
        assert false;
      }
    }
  }

  // ----- all replacements -----

  /** Once gone, a mark-proof secret is never created again by later replacements. */
  lemma {:induction false} RedactHides(text: string, secrets: seq<string>, s: string, i: nat)
    requires Nonempty(secrets) && s in secrets && MarkProof(s)
    ensures !OccursAt(s, Redact(text, secrets), i)
  {
    var n := |secrets| - 1;
    var front, last := secrets[..n], secrets[n];
    assert secrets == front + [last];
    if s == last {
      OwnSecretGone(Redact(text, front), s, i);
    } else if OccursAt(s, Redact(text, secrets), i) {
      NothingCreated(Redact(text, front), last, s, i);
      var j: nat :| OccursAt(s, Redact(text, front), j);
      RedactHides(text, front, s, j);
      assert false;
    }
  }

  lemma {:induction false} NoOccurrenceNoChange(text: string, secret: string)
    requires secret != "" && !Occurs(secret, text)
    ensures ReplaceAll(text, secret) == text
  {
    if |text| >= |secret| {
      if secret <= text { assert OccursAt(secret, text, 0); }
      forall j: nat ensures !OccursAt(secret, text[1..], j) {
        if OccursAt(secret, text[1..], j) { OccursInSuffix(secret, text, 1, j); }
      }
      NoOccurrenceNoChange(text[1..], secret);
      assert text == [text[0]] + text[1..];
    }
  }

  /** A text without secrets comes back as it is. */
  lemma {:induction false} CleanTextUnchanged(text: string, secrets: seq<string>)
    requires Nonempty(secrets) && forall i :: 0 <= i < |secrets| ==> !Occurs(secrets[i], text)
    ensures Redact(text, secrets) == text
  {
    if secrets != [] {
      CleanTextUnchanged(text, secrets[..|secrets| - 1]);
      NoOccurrenceNoChange(text, secrets[|secrets| - 1]);
    }
  }

  /** Redacting twice is redacting once. */
  lemma RedactIdempotent(text: string, secrets: seq<string>)
    requires Nonempty(secrets) && forall i :: 0 <= i < |secrets| ==> MarkProof(secrets[i])
    ensures Redact(Redact(text, secrets), secrets) == Redact(text, secrets)
  {
    forall i | 0 <= i < |secrets| ensures !Occurs(secrets[i], Redact(text, secrets)) {
      forall j: nat ensures !OccursAt(secrets[i], Redact(text, secrets), j) {
        RedactHides(text, secrets, secrets[i], j);
      }
    }
    CleanTextUnchanged(Redact(text, secrets), secrets);
  }

  // ----- when the mark itself gives a secret away -----

  ghost predicate LongestFirst(secrets: seq<string>) {
    forall i, j :: 0 <= i < j < |secrets| ==> |secrets[i]| >= |secrets[j]|
  }

  lemma PrefixOccurs(s: string, text: string)
    ensures OccursAt(s, text, 0) <==> s <= text
  {
    assert |s| <= |text| ==> text[0..|s|] == text[..|s|];
  }

  lemma WholeOccurrence(s: string, text: string, i: nat)
    requires OccursAt(s, text, i) && |s| >= |text|
    ensures s == text
  {
    assert i == 0;
    assert text[0..|s|] == text;
  }

  lemma {:induction false} ReplacementLeavesMark(text: string, secret: string, i: nat)
    requires secret != "" && OccursAt(secret, text, i)
    ensures Occurs(MARK, ReplaceAll(text, secret))
    decreases |text|
  {
    var out := ReplaceAll(text, secret);
    if secret <= text {
      assert OccursAt(MARK, out, 0);
    } else {
      PrefixOccurs(secret, text);
      assert text == [text[0]] + text[1..];
      OccursShift(secret, [text[0]], text[1..], i);
      ReplacementLeavesMark(text[1..], secret, i - 1);
      var j: nat :| OccursAt(MARK, ReplaceAll(text[1..], secret), j);
      assert out[1..] == ReplaceAll(text[1..], secret);
      OccursInSuffix(MARK, out, 1, j);
    }
  }

  /** As long as some secret is still to come that occurs in the text, a mark will be left in it. */
  lemma {:induction false} MarkStays(text: string, secrets: seq<string>)
    requires Nonempty(secrets) && Occurs(MARK, text)
    ensures Occurs(MARK, Redact(text, secrets))
  {
    if secrets != [] {
      var n := |secrets| - 1;
      MarkStays(text, secrets[..n]);
      var before := Redact(text, secrets[..n]);
      if i: nat :| OccursAt(secrets[n], before, i) {
        ReplacementLeavesMark(before, secrets[n], i);
      } else {
        NoOccurrenceNoChange(before, secrets[n]);
      }
    }
  }

  lemma {:induction false} SecretBecomesMark(s: string, secrets: seq<string>)
    requires Nonempty(secrets) && s in secrets
    requires forall i :: 0 <= i < |secrets| ==> |secrets[i]| >= |s|
    ensures Occurs(MARK, Redact(s, secrets))
  {
    var n := |secrets| - 1;
    var front, last := secrets[..n], secrets[n];
    assert secrets == front + [last];
    if s in front {
      SecretBecomesMark(s, front);
      if i: nat :| OccursAt(last, Redact(s, front), i) {
        ReplacementLeavesMark(Redact(s, front), last, i);
      } else {
        NoOccurrenceNoChange(Redact(s, front), last);
      }
    } else {
      forall i | 0 <= i < |front| ensures !Occurs(front[i], s) {
        forall j: nat ensures !OccursAt(front[i], s, j) {
          assert front[i] == secrets[i] && front[i] in front;
          if OccursAt(front[i], s, j) {
            WholeOccurrence(front[i], s, j);
            assert false;
          }
        }
      }
      CleanTextUnchanged(s, front);
      assert OccursAt(s, s, 0);
      ReplacementLeavesMark(s, s, 0);
    }
  }

  lemma {:induction false} RedactAppend(text: string, a: seq<string>, b: seq<string>)
    requires Nonempty(a) && Nonempty(b)
    ensures Nonempty(a + b) && Redact(text, a + b) == Redact(Redact(text, a), b)
  {
    if b == [] {
      assert a + b == a;
    } else {
      RedactAppend(text, a, b[..|b| - 1]);
      assert (a + b)[..|a + b| - 1] == a + b[..|b| - 1];
    }
  }

  lemma OccursInside(s: string, t: string, text: string, i: nat, j: nat)
    requires OccursAt(s, t, i) && OccursAt(t, text, j)
    ensures OccursAt(s, text, j + i)
  {
    var part := text[j..j + |t|];
    assert part == t;
    forall k | 0 <= k < |s| ensures text[j + i + k] == s[k] {
      assert t[i..i + |s|][k] == t[i + k] && part[i + k] == text[j + i + k];
    }
    assert text[j + i..j + i + |s|] == s;
  }

  ghost predicate HidesAll(secrets: seq<string>)
    requires Nonempty(secrets)
  {
    forall text, s, i: nat :: s in secrets ==> !OccursAt(s, Redact(text, secrets), i)
  }

  /**
   For secrets that are apart from the mark, tried longest first: no text ever leaks any of them if
   and only if none of them is a part of the mark.
   */
  lemma HidesAllIffNotInMark(secrets: seq<string>)
    requires Nonempty(secrets) && LongestFirst(secrets)
    requires forall i :: 0 <= i < |secrets| ==> Apart(secrets[i])
    ensures HidesAll(secrets) <==> forall i :: 0 <= i < |secrets| ==> !Occurs(secrets[i], MARK)
  {
    if forall i :: 0 <= i < |secrets| ==> !Occurs(secrets[i], MARK) {
      forall text, s, i: nat | s in secrets ensures !OccursAt(s, Redact(text, secrets), i) {
        var k :| 0 <= k < |secrets| && secrets[k] == s;
        RedactHides(text, secrets, s, i);
      }
    }
    if k :| 0 <= k < |secrets| && Occurs(secrets[k], MARK) {
      LeavesMark(secrets, k);
      var i: nat :| OccursAt(secrets[k], MARK, i);
      var j: nat :| OccursAt(MARK, Redact(secrets[k], secrets), j);
      OccursInside(secrets[k], MARK, Redact(secrets[k], secrets), i, j);
    }
  }

  /** So for secrets without brackets it is the word in the mark that must not contain them. */
  lemma HidesAllIffNotInWord(secrets: seq<string>)
    requires Nonempty(secrets) && LongestFirst(secrets)
    requires forall i :: 0 <= i < |secrets| ==> !HasBracket(secrets[i])
    ensures HidesAll(secrets) <==> forall i :: 0 <= i < |secrets| ==> !Occurs(secrets[i], "REDACTED")
  {
    forall i | 0 <= i < |secrets|
      ensures Apart(secrets[i]) && (Occurs(secrets[i], MARK) <==> Occurs(secrets[i], "REDACTED"))
    {
      BracketFreeIsApart(secrets[i]);
    }
    HidesAllIffNotInMark(secrets);
  }

  lemma LeavesMarkSplit(s: string, a: seq<string>, b: seq<string>)
    requires Nonempty(a) && Nonempty(b) && s in a
    requires forall i :: 0 <= i < |a| ==> |a[i]| >= |s|
    ensures Nonempty(a + b) && Occurs(MARK, Redact(s, a + b))
  {
    SecretBecomesMark(s, a);
    RedactAppend(s, a, b);
    MarkStays(Redact(s, a), b);
  }

  lemma SplitAfter(secrets: seq<string>, k: nat) returns (a: seq<string>, b: seq<string>)
    requires Nonempty(secrets) && LongestFirst(secrets) && k < |secrets|
    ensures secrets == a + b && Nonempty(a) && Nonempty(b) && secrets[k] in a
    ensures forall i :: 0 <= i < |a| ==> |a[i]| >= |secrets[k]|
  {
    a, b := secrets[..k + 1], secrets[k + 1..];
    assert a[k] == secrets[k];
  }

  lemma LeavesMark(secrets: seq<string>, k: nat)
    requires Nonempty(secrets) && LongestFirst(secrets) && k < |secrets|
    ensures Occurs(MARK, Redact(secrets[k], secrets))
  {
    var a, b := SplitAfter(secrets, k);
    LeavesMarkSplit(secrets[k], a, b);
  }

  lemma {:induction false} SkippedPrefix(front: string, secret: string, rest: string)
    requires secret != ""
    requires forall i: nat :: i < |front| ==> !OccursAt(secret, front + rest, i)
    ensures ReplaceAll(front + rest, secret) == front + ReplaceAll(rest, secret)
  {
    var text := front + rest;
    if front == "" {
      assert text == rest;
    } else {
      PrefixOccurs(secret, text);
      SkippedChar(text, secret);
      assert text[1..] == front[1..] + rest;
      LaterOccurrences(text, secret, |front|);
      SkippedPrefix(front[1..], secret, rest);
      HeadAndTail(front, ReplaceAll(rest, secret));
    }
  }

  lemma HeadAndTail(front: string, rest: string)
    requires front != ""
    ensures [front[0]] + (front[1..] + rest) == front + rest
  {
  }

  lemma LaterOccurrences(text: string, secret: string, n: nat)
    requires text != "" && forall i: nat :: i < n ==> !OccursAt(secret, text, i)
    ensures forall i: nat :: i < n - 1 ==> !OccursAt(secret, text[1..], i)
  {
    forall i: nat | i < n - 1 ensures !OccursAt(secret, text[1..], i) {
      if OccursAt(secret, text[1..], i) { OccursInSuffix(secret, text, 1, i); }
    }
  }

  lemma SkippedChar(text: string, secret: string)
    requires secret != "" && text != "" && !(secret <= text)
    ensures ReplaceAll(text, secret) == [text[0]] + ReplaceAll(text[1..], secret)
  {
    if |text| < |secret| {
      NoOccurrenceWhenShort(text[1..], secret);
      assert text == [text[0]] + text[1..];
    }
  }

  lemma NoOccurrenceWhenShort(text: string, secret: string)
    requires |text| < |secret|
    ensures ReplaceAll(text, secret) == text
  {
  }

  /** The end of the mark of length k. */
  function MarkEnd(k: nat): string
    requires k <= |MARK|
  {
    MARK[|MARK| - k..]
  }

  lemma SecretAlone(text: string, secret: string)
    requires secret != ""
    ensures Nonempty([secret]) && Redact(text, [secret]) == ReplaceAll(text, secret)
  {
    var none: seq<string> := [];
    assert [secret][..0] == none;
    assert Redact(text, none) == text;
  }

  /** Every secret that begins with an end of the mark is brought back by the mark put in its own place. */
  lemma MarkEndLeaks(k: nat, rest: string)
    requires 0 < k <= |MARK| && rest != ""
    ensures var secret := MarkEnd(k) + rest;
            && Nonempty([secret])
            && Redact(secret + rest, [secret]) == MARK + rest
            && OccursAt(secret, MARK + rest, |MARK| - k)
  {
    var secret := MarkEnd(k) + rest;
    var text := secret + rest;
    assert text[..|secret|] == secret && text[|secret|..] == rest;
    NoOccurrenceWhenShort(rest, secret);
    assert ReplaceAll(text, secret) == MARK + rest;
    SecretAlone(text, secret);
    var all := MARK + rest;
    assert all[|MARK| - k..] == secret;
    assert all[|MARK| - k..|MARK| - k + |secret|] == secret;
  }

  lemma MarkPartLeaks(secret: string)
    requires secret != "" && Occurs(secret, MARK)
    ensures Nonempty([secret]) && Redact(secret, [secret]) == MARK
  {
    assert secret[..|secret|] == secret && secret[|secret|..] == "";
    assert ReplaceAll("", secret) == "";
    assert ReplaceAll(secret, secret) == MARK + "";
    SecretAlone(secret, secret);
  }

  /** So a secret of its own that is hidden from every text neither begins as the mark ends nor is part of it. */
  lemma HiddenIsHeadApart(secret: string)
    requires secret != "" && HidesAll([secret])
    ensures HeadApart(secret) && !Occurs(secret, MARK)
  {
    assert secret in [secret];
    if Occurs(secret, MARK) {
      MarkPartLeaks(secret);
      assert false;
    }
    forall k | 0 < k <= |secret| && k <= |MARK| ensures secret[..k] != MARK[|MARK| - k..] {
      if secret[..k] == MARK[|MARK| - k..] {
        var rest := secret[k..];
        assert secret == MarkEnd(k) + rest;
        if rest == "" {
          assert MARK[|MARK| - k..|MARK| - k + |secret|] == secret;
          assert OccursAt(secret, MARK, |MARK| - k);
        } else {
          MarkEndLeaks(k, rest);
        }
        assert false;
      }
    }
  }

  // ----- exactly when a secret of its own leaks -----

  /**
   From position n on the secret is a beginning of the mark, or the mark and more; and where its first n
   characters stand before it, they do not make up an earlier occurrence.
   */
  ghost predicate CompletedByMark(s: string, n: nat, k: nat) {
    && 0 < k <= |MARK| && n + k <= |s| && (n + k == |s| || k == |MARK|)
    && s[n..n + k] == MARK[..k]
    && forall j: nat :: j < n ==> !OccursAt(s, s[..n] + s, j)
  }

  ghost predicate CanBeCompleted(s: string) {
    exists n: nat, k: nat :: CompletedByMark(s, n, k)
  }

  lemma OccursLonger(s: string, text: string, more: string, i: nat)
    requires i + |s| <= |text|
    ensures OccursAt(s, text, i) <==> OccursAt(s, text + more, i)
  {
    assert text[i..i + |s|] == (text + more)[i..i + |s|];
  }

  /** The mark put in place of such a secret, behind its own beginning, completes it. */
  lemma CompletedLeaks(s: string, n: nat, k: nat)
    requires CompletedByMark(s, n, k)
    ensures s != "" && Nonempty([s])
    ensures Redact(s[..n] + s + s[n + k..], [s]) == s[..n] + MARK + s[n + k..]
    ensures OccursAt(s, s[..n] + MARK + s[n + k..], 0)
  {
    var u, w := s[..n], s[n + k..];
    var rest := s + w;
    assert u + s + w == u + rest;
    forall j: nat | j < |u| ensures !OccursAt(s, u + rest, j) {
      OccursLonger(s, u + s, w, j);
      assert u + s + w == u + rest;
    }
    SkippedPrefix(u, s, rest);
    assert rest[..|s|] == s && rest[|s|..] == w;
    NoOccurrenceWhenShort(w, s);
    assert ReplaceAll(rest, s) == MARK + w;
    SecretAlone(u + s + w, s);
    assert u + (MARK + w) == u + MARK + w;
    MarkCompletes(s, n, k);
  }

  lemma MarkCompletes(s: string, n: nat, k: nat)
    requires 0 < k <= |MARK| && n + k <= |s| && (n + k == |s| || k == |MARK|) && s[n..n + k] == MARK[..k]
    ensures OccursAt(s, s[..n] + MARK + s[n + k..], 0)
  {
    var out := s[..n] + MARK + s[n + k..];
    assert s == s[..n] + s[n..n + k] + s[n + k..];
    if k == |MARK| {
      assert MARK[..k] == MARK;
      assert out == s;
    } else {
      assert s[n + k..] == "";
      assert out[..|s|] == s[..n] + MARK[..k];
    }
    assert out[0..|s|] == s;
  }

  lemma TextThenOccurs(s: string, p: string, t: string, v: string)
    requires s == p + v && v <= t
    ensures OccursAt(s, p + t, 0)
  {
    assert (p + t)[0..|s|] == p + t[..|v|];
  }

  lemma PassOne(s: string, p: string, t: string, v: string, rest: string)
    requires s == p + v && v != "" && t != "" && v <= [t[0]] + rest && !(s <= t)
    requires forall j: nat :: j < |p| ==> !OccursAt(s, p + t, j)
    ensures var q := p + [t[0]];
            && s == q + v[1..] && v[1..] <= rest
            && forall j: nat :: j < |q| ==> !OccursAt(s, q + t[1..], j)
  {
    var q, out := p + [t[0]], [t[0]] + rest;
    assert v == out[..|v|] && v[0] == t[0] && v == [v[0]] + v[1..];
    assert v[1..] == out[1..|v|] == rest[..|v| - 1];
    assert t == [t[0]] + t[1..] && q + t[1..] == p + t;
    NotAtJoint(s, p, t);
  }

  /**
   Between a place that was passed over and what replacing leaves behind it: if the secret is back there,
   the first mark has completed it.
   */
  lemma {:induction false} BackAfterPassing(s: string, p: string, t: string, v: string)
    requires p != "" && s == p + v && v <= ReplaceAll(t, s)
    requires forall j: nat :: j < |p| ==> !OccursAt(s, p + t, j)
    ensures CanBeCompleted(s)
    decreases |t|
  {
    if v == "" || |t| < |s| {
      TextThenOccurs(s, p, t, v);
      assert false;
    } else if s <= t {
      MarkAfterPassing(s, p, t, v);
    } else {
      PassOne(s, p, t, v, ReplaceAll(t[1..], s));
      BackAfterPassing(s, p + [t[0]], t[1..], v[1..]);
    }
  }

  lemma NotAtJoint(s: string, p: string, t: string)
    requires !(s <= t)
    ensures !OccursAt(s, p + t, |p|)
  {
    if OccursAt(s, p + t, |p|) {
      OccursShift(s, p, t, |p|);
      PrefixOccurs(s, t);
    }
  }

  lemma MarkAfterPassing(s: string, p: string, t: string, v: string)
    requires s != "" && v != "" && s == p + v && s <= t && v <= ReplaceAll(t, s)
    requires forall j: nat :: j < |p| ==> !OccursAt(s, p + t, j)
    ensures CanBeCompleted(s)
  {
    var n, k := |p|, if |v| <= |MARK| then |v| else |MARK|;
    var out := MARK + ReplaceAll(t[|s|..], s);
    assert v == out[..|v|];
    assert s[n..n + k] == v[..k] == out[..k] == MARK[..k];
    assert s[..n] == p;
    forall j: nat | j < n ensures !OccursAt(s, s[..n] + s, j) {
      assert p + t == p + s + t[|s|..];
      OccursLonger(s, p + s, t[|s|..], j);
    }
    assert CompletedByMark(s, n, k);
  }

  lemma {:induction false} LeakMeansCompleted(text: string, s: string, i: nat)
    requires s != "" && HeadApart(s) && !Occurs(s, MARK) && OccursAt(s, ReplaceAll(text, s), i)
    ensures CanBeCompleted(s)
    decreases |text|
  {
    if s <= text {
      var rest := ReplaceAll(text[|s|..], s);
      if i < |MARK| {
        HeadInsideMark(s, rest, i);
        assert false;
      }
      OccursShift(s, MARK, rest, i);
      LeakMeansCompleted(text[|s|..], s, i - |MARK|);
    } else {
      SkippedOrShort(text, s, i);
      var rest := ReplaceAll(text[1..], s);
      if i == 0 {
        var p, v := [text[0]], s[1..];
        assert text == p + text[1..];
        FirstPassed(text, s, rest);
        BackAfterPassing(s, p, text[1..], v);
      } else {
        OccursShift(s, [text[0]], rest, i);
        LeakMeansCompleted(text[1..], s, i - 1);
      }
    }
  }

  lemma HeadInsideMark(s: string, rest: string, i: nat)
    requires s != "" && HeadApart(s) && OccursAt(s, MARK + rest, i) && i < |MARK|
    ensures Occurs(s, MARK)
  {
    if i + |s| <= |MARK| {
      OccursLonger(s, MARK, rest, i);
    } else {
      AcrossMarkEnd(s, rest, i);
      assert false;
    }
  }

  lemma SkippedOrShort(text: string, s: string, i: nat)
    requires s != "" && !(s <= text) && OccursAt(s, ReplaceAll(text, s), i)
    ensures text != "" && ReplaceAll(text, s) == [text[0]] + ReplaceAll(text[1..], s)
  {
    SkippedChar(text, s);
  }

  lemma FirstPassed(text: string, s: string, rest: string)
    requires s != "" && text != "" && !(s <= text) && OccursAt(s, [text[0]] + rest, 0)
    ensures s == [text[0]] + s[1..] && s[1..] <= rest && !OccursAt(s, text, 0)
  {
    var out := [text[0]] + rest;
    assert out[0..|s|] == s && out[0] == s[0];
    assert s[1..] == out[1..|s|] == rest[..|s| - 1];
    PrefixOccurs(s, text);
  }

  /**
   A secret of its own is hidden from every text exactly if it is no part of the mark, does not begin as
   the mark ends, and cannot be completed by a mark behind its own beginning.
   */
  lemma HidesOneIff(s: string)
    requires s != ""
    ensures Nonempty([s])
    ensures HidesAll([s]) <==> !Occurs(s, MARK) && HeadApart(s) && !CanBeCompleted(s)
  {
    assert s in [s];
    if HidesAll([s]) {
      HiddenIsHeadApart(s);
      if n: nat, k: nat :| CompletedByMark(s, n, k) {
        CompletedLeaks(s, n, k);
        assert false;
      }
    }
    if !Occurs(s, MARK) && HeadApart(s) && !CanBeCompleted(s) {
      forall text, x, i: nat | x in [s] ensures !OccursAt(x, Redact(text, [s]), i) {
        SecretAlone(text, s);
        if OccursAt(s, Redact(text, [s]), i) { LeakMeansCompleted(text, s, i); }
      }
    }
  }

  /** Ending in a bracket is enough, if the bracket's place is the first where the secret can stand again. */
  lemma BracketedSecretLeaks(body: string)
    requires body != "" && forall i: nat :: 0 < i < |body| ==> body[i] != body[0]
    requires body[0] != '['
    ensures CompletedByMark(body + "[", |body|, 1) && !HidesAll([body + "["])
  {
    var secret := body + "[";
    assert secret[..|body|] == body && secret[|body|..|body| + 1] == "[" == MARK[..1];
    forall j: nat | j < |body| ensures !OccursAt(secret, body + secret, j) {
      if OccursAt(secret, body + secret, j) {
        OccurrenceAt(secret, body + secret, j, 0);
        OccurrenceAt(secret, body + secret, j, |body|);
        assert false;
      }
    }
    assert CompletedByMark(secret, |body|, 1);
    HidesOneIff(secret);
  }

  lemma SecondOfMark(s: string, n: nat, k: nat)
    requires 1 < k <= |MARK| && n + k <= |s| && s[n..n + k] == MARK[..k]
    ensures s[n + 1] == MARK[1]
  {
    assert s[n..n + k][1] == s[n + 1] && MARK[..k][1] == MARK[1];
  }

  /** Not every secret ending in a bracket leaks: three brackets in a row never do. */
  lemma ThreeBracketsAreHidden()
    ensures Nonempty(["[[["]) && HidesAll(["[[["])
  {
    var s := "[[[";
    assert MARK[0] == '[' && forall i :: 0 < i < |MARK| ==> MARK[i] != '[';
    if i: nat :| OccursAt(s, MARK, i) {
      OccurrenceAt(s, MARK, i, 1);
      assert false;
    }
    forall k | 0 < k <= |s| && k <= |MARK| ensures s[..k] != MARK[|MARK| - k..] {
      assert s[..k][0] == '[' && MARK[|MARK| - k..][0] == MARK[|MARK| - k];
    }
    forall n: nat, k: nat ensures !CompletedByMark(s, n, k) {
      if CompletedByMark(s, n, k) {
        if k > 1 { SecondOfMark(s, n, k); }
        assert n == 2;
        assert (s[..n] + s)[0..3] == s;
        assert OccursAt(s, s[..n] + s, 0);
        assert false;
      }
    }
    HidesOneIff(s);
  }

  // ----- the secrets of an environment -----

  const SECRET_WORDS := ["key", "token", "secret", "password", "credential", "auth"]

  ghost predicate IsSecretKey(key: string) {
    exists i :: 0 <= i < |SECRET_WORDS| && Occurs(SECRET_WORDS[i], Lower(key))
  }

  /** Two texts that differ at most in the case of ASCII letters. */
  ghost predicate SameButForCase(a: string, b: string) {
    && |a| == |b|
    && forall i :: 0 <= i < |a| ==>
         || a[i] == b[i]
         || ('A' <= a[i] <= 'Z' && b[i] as int == a[i] as int + 32)
         || ('A' <= b[i] <= 'Z' && a[i] as int == b[i] as int + 32)
  }

  /** The case of a variable's name does not matter. */
  lemma CaseDoesNotMatter(a: string, b: string)
    requires SameButForCase(a, b)
    ensures IsSecretKey(a) <==> IsSecretKey(b)
  {
    assert Lower(a) == Lower(b);
  }

  /** A variable is secret exactly if one of six words is in its lower-cased name. */
  lemma SecretKeyIff(key: string)
    ensures IsSecretKey(key) <==>
            || Occurs("key", Lower(key)) || Occurs("token", Lower(key)) || Occurs("secret", Lower(key))
            || Occurs("password", Lower(key)) || Occurs("credential", Lower(key)) || Occurs("auth", Lower(key))
  {
    assert SECRET_WORDS[0] == "key" && SECRET_WORDS[1] == "token" && SECRET_WORDS[2] == "secret";
    assert SECRET_WORDS[3] == "password" && SECRET_WORDS[4] == "credential" && SECRET_WORDS[5] == "auth";
  }

  datatype Variable = Variable(key: string, value: Option<string>)

  ghost predicate IsSecret(v: Variable) {
    IsSecretKey(v.key) && v.value.Some? && |v.value.value| >= 6
  }

  /** Longest first, and otherwise in the order of the environment. */
  function InsertByLength(secrets: seq<string>, s: string): seq<string> {
    if secrets == [] || |secrets[|secrets| - 1]| >= |s| then secrets + [s]
    else InsertByLength(secrets[..|secrets| - 1], s) + [secrets[|secrets| - 1]]
  }

  ghost function SecretsOf(env: seq<Variable>): seq<string> {
    if env == [] then []
    else
      var last := env[|env| - 1];
      var front := SecretsOf(env[..|env| - 1]);
      if IsSecret(last) then InsertByLength(front, last.value.value) else front
  }

  lemma {:induction false} InsertMembers(secrets: seq<string>, s: string, x: string)
    ensures x in InsertByLength(secrets, s) <==> x in secrets || x == s
  {
    if !(secrets == [] || |secrets[|secrets| - 1]| >= |s|) {
      InsertMembers(secrets[..|secrets| - 1], s, x);
      assert secrets == secrets[..|secrets| - 1] + [secrets[|secrets| - 1]];
    }
  }

  lemma {:induction false} InsertKeepsOrder(secrets: seq<string>, s: string)
    requires LongestFirst(secrets)
    ensures LongestFirst(InsertByLength(secrets, s)) && |InsertByLength(secrets, s)| == |secrets| + 1
    ensures var r := InsertByLength(secrets, s);
            |r[|secrets|]| == if secrets != [] && |secrets[|secrets| - 1]| < |s| then |secrets[|secrets| - 1]| else |s|
  {
    if !(secrets == [] || |secrets[|secrets| - 1]| >= |s|) {
      InsertKeepsOrder(secrets[..|secrets| - 1], s);
    }
  }

  lemma {:induction false} SecretsListed(env: seq<Variable>, x: string)
    ensures LongestFirst(SecretsOf(env))
    ensures x in SecretsOf(env) <==>
            |x| >= 6 && exists v :: v in env && IsSecretKey(v.key) && v.value == Some(x)
  {
    if env != [] {
      var n := |env| - 1;
      SecretsListed(env[..n], x);
      assert env == env[..n] + [env[n]];
      if IsSecret(env[n]) {
        InsertKeepsOrder(SecretsOf(env[..n]), env[n].value.value);
        InsertMembers(SecretsOf(env[..n]), env[n].value.value, x);
      }
    }
  }

  /** The redactor of an environment: no secret that neither overlaps the mark nor is a part of it survives. */
  lemma EnvironmentSecretsHidden(env: seq<Variable>, text: string, v: Variable, i: nat)
    requires v in env && IsSecret(v) && MarkProof(v.value.value)
    ensures Nonempty(SecretsOf(env)) && !OccursAt(v.value.value, Redact(text, SecretsOf(env)), i)
  {
    var secrets := SecretsOf(env);
    forall k | 0 <= k < |secrets| ensures secrets[k] != "" {
      SecretsListed(env, secrets[k]);
      assert secrets[k] in secrets;
    }
    SecretsListed(env, v.value.value);
    RedactHides(text, secrets, v.value.value, i);
  }
}
