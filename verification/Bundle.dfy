/** What the assembled certificate bundle does and does not depend on (internal/controller/certs.go). */
module Bundle {
  import opened Prelude
  import opened Platform
  import opened Reconciliation

  predicate Blank(b: Bytes) {
    forall i :: 0 <= i < |b| ==> IsSpace(b[i])
  }

  /** No space at either end. */
  predicate Trimmed(b: Bytes) {
    b != "" ==> !IsSpace(b[0]) && !IsSpace(b[|b| - 1])
  }

  lemma {:induction false} TrimLeftDrops(l: Bytes, c: Bytes)
    requires Blank(l) && (c != "" ==> !IsSpace(c[0]))
    ensures TrimLeft(l + c) == c
  {
    if l == "" {
      assert l + c == c;
    } else {
      assert (l + c)[1..] == l[1..] + c;
      TrimLeftDrops(l[1..], c);
    }
  }

  lemma {:induction false} TrimRightDrops(c: Bytes, r: Bytes)
    requires Blank(r) && (c != "" ==> !IsSpace(c[|c| - 1]))
    ensures TrimRight(c + r) == c
  {
    if r == "" {
      assert c + r == c;
    } else {
      assert (c + r)[..|c + r| - 1] == c + r[..|r| - 1];
      TrimRightDrops(c, r[..|r| - 1]);
    }
  }

  /** Trimming finds the core between any padding. */
  lemma PaddingIsDropped(l: Bytes, c: Bytes, r: Bytes)
    requires Blank(l) && Blank(r) && Trimmed(c)
    ensures TrimSpace(l + c + r) == c
  {
    if c == "" {
      assert l + c + r == (l + r) + "";
      TrimLeftDrops(l + r, "");
    } else {
      assert l + c + r == l + (c + r);
      TrimLeftDrops(l, c + r);
      TrimRightDrops(c, r);
    }
  }

  /** And there is always such a core. */
  lemma {:induction false} CoreExists(b: Bytes) returns (l: Bytes, c: Bytes, r: Bytes)
    ensures b == l + c + r && Blank(l) && Blank(r) && Trimmed(c)
    decreases |b|
  {
    if b == "" {
      l, c, r := "", "", "";
    } else if IsSpace(b[0]) {
      var l', c', r' := CoreExists(b[1..]);
      l, c, r := [b[0]] + l', c', r';
    } else if IsSpace(b[|b| - 1]) {
      var l', c', r' := CoreExists(b[..|b| - 1]);
      l, c, r := l', c', r' + [b[|b| - 1]];
    } else {
      l, c, r := "", b, "";
    }
  }

  /** A bundle is refused exactly when the certificate or the key holds nothing but space. */
  lemma BundleRefusedExactlyWhen(s: Secret)
    ensures CertPEMBundle(s).Failure? <==> Blank(DataOf(s, "tls.crt")) || Blank(DataOf(s, "tls.key"))
  {
    TrimmedToNothing(DataOf(s, "tls.crt"));
    TrimmedToNothing(DataOf(s, "tls.key"));
  }

  lemma TrimmedToNothing(b: Bytes)
    ensures TrimSpace(b) == "" <==> Blank(b)
  {
    var l, c, r := CoreExists(b);
    PaddingIsDropped(l, c, r);
    if c != "" {
      assert b[|l|] == c[0];
    }
  }

  /** The chain comes first and the key last, whatever space surrounds the parts of the Secret. */
  lemma BundleOfCores(s: Secret, crt: Bytes, ca: Bytes, key: Bytes)
    requires TrimSpace(DataOf(s, "tls.crt")) == crt != "" && TrimSpace(DataOf(s, "tls.key")) == key != ""
    requires TrimSpace(DataOf(s, "ca.crt")) == ca
    ensures CertPEMBundle(s).Success?
    ensures var b := CertPEMBundle(s).value;
            && crt + "\n" <= b && |b| >= |key| + 1 && b[|b| - |key| - 1..] == key + "\n"
            && |b| == |crt| + |key| + 2 + (if ca == "" then 0 else |ca| + 1)
            && (ca != "" ==> b[|crt| + 1..|crt| + |ca| + 2] == ca + "\n")
  {
  }
}
