/** Masking secret values in log text. */
module LogRedact {
  import opened PyStr

  const MASK := "***REDACTED***"

  /** Shorter values are not treated as secrets. */
  predicate Eligible(secret: string) { |secret| >= 4 }

  function RedactOne(text: string, secret: string): string {
    if Eligible(secret) then Replace(text, secret, MASK) else text
  }

  function Redact(text: string, secrets: seq<string>): string {
    if secrets == [] then text
    else RedactOne(Redact(text, secrets[..|secrets| - 1]), secrets[|secrets| - 1])
  }

  /** No secret can overlap the mask; sharing no character with it is enough. */
  ghost predicate ClearOfMask(secrets: seq<string>) {
    forall i | 0 <= i < |secrets| && Eligible(secrets[i]) :: !Touches(secrets[i], MASK)
  }

  ghost predicate Hidden(text: string, secrets: seq<string>) {
    forall i | 0 <= i < |secrets| && Eligible(secrets[i]) :: !Contains(text, secrets[i])
  }

  method RedactLogs(logText: string, secretValues: seq<string>) returns (r: string)
    ensures r == Redact(logText, secretValues)
    ensures forall i | 0 <= i < |secretValues| && Eligible(secretValues[i]) && !Touches(secretValues[i], MASK) ::
              !Contains(r, secretValues[i])
    ensures ClearOfMask(secretValues) ==> Hidden(r, secretValues)
  {
    r := logText;
    for i := 0 to |secretValues|
      invariant r == Redact(logText, secretValues[..i])
    {
      assert secretValues[..i + 1][..i] == secretValues[..i];
      if |secretValues[i]| >= 4 {
        r := Replace(r, secretValues[i], MASK);
      }
    }
    assert secretValues[..|secretValues|] == secretValues;
    forall i: nat | i < |secretValues| && Eligible(secretValues[i]) && !Touches(secretValues[i], MASK)
      ensures !Contains(r, secretValues[i])
    {
      SecretIsGone(logText, secretValues, i);
    }
  }

  lemma DisjointIsClear(secrets: seq<string>)
    requires forall i, c | 0 <= i < |secrets| && Eligible(secrets[i]) && c in secrets[i] :: c !in MASK
    ensures ClearOfMask(secrets)
  {
    forall i | 0 <= i < |secrets| && Eligible(secrets[i]) ensures !Touches(secrets[i], MASK) {
      if Touches(secrets[i], MASK) { SharedCharacter(secrets[i], MASK); }
    }
  }

  /** A string left after masking overlaps the mask, or was there before and is not the masked secret. */
  lemma OneLeaves(text: string, secret: string, other: string)
    requires other != "" && Contains(RedactOne(text, secret), other)
    ensures Touches(other, MASK) || (Contains(text, other) && !(Eligible(secret) && other == secret))
  {
    if Eligible(secret) {
      var r := Replace(text, secret, MASK);
      var i :| 0 <= i <= |r| - |other| && OccursAt(r, other, i);
      ReplaceCreatesNothing(text, secret, MASK, other, i);
    }
  }

  /** A secret that cannot overlap the mask is gone, whatever the other secrets are. */
  lemma {:induction false} SecretIsGone(text: string, secrets: seq<string>, i: nat)
    requires i < |secrets| && Eligible(secrets[i]) && !Touches(secrets[i], MASK)
    ensures !Contains(Redact(text, secrets), secrets[i])
  {
    var n := |secrets| - 1;
    if Contains(Redact(text, secrets), secrets[i]) {
      OneLeaves(Redact(text, secrets[..n]), secrets[n], secrets[i]);
      if i < n {
        assert secrets[..n][i] == secrets[i];
        SecretIsGone(text, secrets[..n], i);
      }
    }
  }

  /** Whatever the order, overlap or containment of the secrets, none of them is left. */
  lemma RedactHides(text: string, secrets: seq<string>)
    requires ClearOfMask(secrets)
    ensures Hidden(Redact(text, secrets), secrets)
  {
    forall i: nat | i < |secrets| && Eligible(secrets[i]) ensures !Contains(Redact(text, secrets), secrets[i]) {
      SecretIsGone(text, secrets, i);
    }
  }

  lemma {:induction false} RedactUnchanged(text: string, secrets: seq<string>)
    requires Hidden(text, secrets)
    ensures Redact(text, secrets) == text
  {
    if secrets != [] {
      var n := |secrets| - 1;
      assert forall i | 0 <= i < n :: secrets[..n][i] == secrets[i];
      RedactUnchanged(text, secrets[..n]);
      if Eligible(secrets[n]) { ReplaceAbsent(text, secrets[n], MASK); }
    }
  }

  lemma RedactIdempotent(text: string, secrets: seq<string>)
    requires ClearOfMask(secrets)
    ensures Redact(Redact(text, secrets), secrets) == Redact(text, secrets)
  {
    RedactHides(text, secrets);
    RedactUnchanged(Redact(text, secrets), secrets);
  }

  /** A secret that is part of the mask survives. */
  lemma MaskLeaks()
    ensures Contains(Redact("DACT", ["DACT"]), "DACT")
  {
    assert Redact("DACT", ["DACT"][..0]) == "DACT";
    assert Redact("DACT", ["DACT"]) == Replace("DACT", "DACT", MASK) == MASK + "";
    assert MASK[5..9] == "DACT";
    assert OccursAt(MASK + "", "DACT", 5);
  }

  // ---- which secret can leak ----

  /** The part of a secret that sticks out to the right when it is laid over the mask at `d`. */
  function RightOf(secret: string, d: int): string
    requires d < |MASK|
  {
    if d + |secret| > |MASK| then secret[|MASK| - d..] else ""
  }

  lemma OneSecret(text: string, secret: string)
    requires Eligible(secret)
    ensures Redact(text, [secret]) == Replace(text, secret, MASK)
  {
  }

  lemma ShortIsKept(text: string, secret: string)
    requires |text| < |secret|
    ensures Replace(text, secret, MASK) == text
  {
  }

  /** Laid over the mask at `d`, the secret reads the same as what surrounds the mask. */
  lemma OverlayReads(secret: string, d: int, k: nat)
    requires AgreesAt(secret, MASK, d) && k < |secret|
    ensures d + k < 0 || (if d + k < |MASK| then MASK[d + k] == secret[k]
                          else d + k - |MASK| < |RightOf(secret, d)| && RightOf(secret, d)[d + k - |MASK|] == secret[k])
  {
  }

  /** The secret starts inside the mask: the secret followed by its own tail leaks it. */
  lemma LeaksToTheRight(secret: string, d: nat)
    requires Eligible(secret) && AgreesAt(secret, MASK, d)
    ensures OccursAt(Replace(secret + RightOf(secret, d), secret, MASK), secret, d)
  {
  }

  lemma EarlierMatch(secret: string, n: nat, right: string, p: nat)
    requires p < n < |secret|
    ensures secret <= secret[p..n] + (secret + right) ==> secret[n] == secret[0]
  {
  }

  /** In a text that starts by repeating the secret, an early match puts its first character at `n`. */
  lemma {:induction false} NoEarlierMatch(secret: string, n: nat, right: string, p: nat)
    requires p <= n < |secret| && secret[n] != secret[0]
    ensures NoMatchBefore(secret[p..n] + (secret + right), secret, n - p)
    decreases n - p
  {
    if p < n {
      EarlierMatch(secret, n, right, p);
      NoEarlierMatch(secret, n, right, p + 1);
      assert (secret[p..n] + (secret + right))[1..] == secret[p + 1..n] + (secret + right);
    }
  }

  /** The text starts with the part of the secret before the mask, and only what follows is masked. */
  lemma MaskedAfter(secret: string, n: nat, right: string)
    requires Eligible(secret) && n < |secret| && secret[n] != secret[0] && |right| < |secret|
    ensures var r := Replace(secret[0..n] + (secret + right), secret, MASK);
            |r| >= n && r[..n] == secret[0..n] && r[n..] == MASK + right
  {
    var text := secret[0..n] + (secret + right);
    NoEarlierMatch(secret, n, right, 0);
    assert text[n..] == secret + right;
    assert (secret + right)[|secret|..] == right;
    ReplaceFirst(text, secret, MASK, n);
    ShortIsKept(right, secret);
    assert text[..n] == secret[0..n];
  }

  /** The secret starts before the mask and not with the mask's last character. */
  lemma LeaksToTheLeft(secret: string, d: int)
    requires Eligible(secret) && AgreesAt(secret, MASK, d) && d < 0 && secret[0] != '*'
    ensures OccursAt(Replace(secret[0..-d] + (secret + RightOf(secret, d)), secret, MASK), secret, 0)
  {
    hide Replace;
    var n, right := -d, RightOf(secret, d);
    OverlayReads(secret, d, n);
    MaskedAfter(secret, n, right);
    var r := Replace(secret[0..n] + (secret + right), secret, MASK);
    forall k | 0 <= k < |secret| ensures k < |r| && r[k] == secret[k] {
      OverlayReads(secret, d, k);
      if k < n { assert r[k] == r[..n][k]; } else { assert r[k] == r[n..][k - n] == (MASK + right)[k - n]; }
    }
    assert |secret| - 1 < |r|;
    assert r[0..0 + |secret|] == secret;
  }

  /** A single secret is hidden in every text exactly when it cannot overlap the mask. */
  lemma OneSecretIsHiddenExactly(secret: string)
    requires Eligible(secret)
    ensures (forall text :: !Contains(Redact(text, [secret]), secret)) <==> !Touches(secret, MASK)
  {
    if Touches(secret, MASK) {
      var d :| AgreesAt(secret, MASK, d);
      var text: string;
      if d >= 0 {
        text := secret + RightOf(secret, d);
        LeaksToTheRight(secret, d);
      } else if secret[0] == '*' {
        assert AgreesAt(secret, MASK, |MASK| - 1);
        text := secret + RightOf(secret, |MASK| - 1);
        LeaksToTheRight(secret, |MASK| - 1);
      } else {
        text := secret[0..-d] + (secret + RightOf(secret, d));
        LeaksToTheLeft(secret, d);
      }
      OneSecret(text, secret);
      assert Contains(Redact(text, [secret]), secret);
    } else {
      forall text ensures !Contains(Redact(text, [secret]), secret) {
        RedactHides(text, [secret]);
        assert [secret][0] == secret;
      }
    }
  }
}
