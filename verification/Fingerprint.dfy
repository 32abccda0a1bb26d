/** The key material of a decision and of an invoice
    (src/ap_agent/persistence/repository.py, src/ap_agent/domain/evidence.py).

    The program hashes these strings with SHA-256 and stores the digest; here a digest is represented by
    its own preimage, which amounts to taking the hash to be injective. */
module Fingerprint {
  import opened Prelude
  import opened Domain
  import opened Decimals

  // ---- the normalised invoice number --------------------------------------------------

  predicate IsAlnum(c: char) {
    '0' <= c <= '9' || 'a' <= c <= 'z' || 'A' <= c <= 'Z'
  }

  function OnlyAlnum(s: string): string {
    if s == "" then ""
    else if IsAlnum(s[0]) then [s[0]] + OnlyAlnum(s[1..])
    else OnlyAlnum(s[1..])
  }

  /** An invoice number reduced to its alphanumeric characters, upper-cased. */
  function NormaliseReference(reference: string): string {
    Upper(OnlyAlnum(reference))
  }

  const DIGITS: string := "0123456789"
  const LOWER: string := "abcdefghijklmnopqrstuvwxyz"
  const UPPER: string := "ABCDEFGHIJKLMNOPQRSTUVWXYZ"

  predicate LetterOrDigit(c: char) {
    c in DIGITS || c in LOWER || c in UPPER
  }

  lemma AlnumIsLetterOrDigit(c: char)
    ensures IsAlnum(c) <==> LetterOrDigit(c)
  {
    assert forall i :: 0 <= i < 10 ==> DIGITS[i] as int == 48 + i;
    assert forall i :: 0 <= i < 26 ==> LOWER[i] as int == 97 + i;
    assert forall i :: 0 <= i < 26 ==> UPPER[i] as int == 65 + i;
    if '0' <= c <= '9' {
      assert DIGITS[c as int - 48] == c;
    } else if 'a' <= c <= 'z' {
      assert LOWER[c as int - 97] == c;
    } else if 'A' <= c <= 'Z' {
      assert UPPER[c as int - 65] == c;
    }
  }

  /** A letter in lower and in upper case. */
  predicate TwoCases(lower: char, upper: char) {
    exists i :: 0 <= i < 26 && lower == LOWER[i] && upper == UPPER[i]
  }

  /** The same character, or the two cases of one letter. */
  predicate SameLetter(c: char, d: char) {
    c == d || TwoCases(c, d) || TwoCases(d, c)
  }

  lemma LettersInOrder(i: int)
    requires 0 <= i < 26
    ensures LOWER[i] as int == 97 + i && UPPER[i] as int == 65 + i
  {
  }

  lemma TwoCasesInCodes(lower: char, upper: char)
    ensures TwoCases(lower, upper) <==> 'a' <= lower <= 'z' && upper as int == lower as int - 32
  {
    if TwoCases(lower, upper) {
      var i :| 0 <= i < 26 && lower == LOWER[i] && upper == UPPER[i];
      LettersInOrder(i);
    }
    if 'a' <= lower <= 'z' && upper as int == lower as int - 32 {
      LettersInOrder(lower as int - 97);
    }
  }

  lemma SameLetterSameUpper(c: char, d: char)
    ensures SameLetter(c, d) <==> UpperChar(c) == UpperChar(d)
  {
    hide TwoCases;
    TwoCasesInCodes(c, d);
    TwoCasesInCodes(d, c);
  }

  /** Two references name the same number: read side by side, skipping everything but letters and digits, they
      agree but for the case of letters. */
  predicate Alike(x: string, y: string) {
    if x != "" && !LetterOrDigit(x[0]) then Alike(x[1..], y)
    else if y != "" && !LetterOrDigit(y[0]) then Alike(x, y[1..])
    else if x == "" || y == "" then x == y
    else SameLetter(x[0], y[0]) && Alike(x[1..], y[1..])
  }

  /** The same word but for the case of its letters. */
  predicate SameWord(s: string, t: string) {
    |s| == |t| && forall i :: 0 <= i < |s| ==> SameLetter(s[i], t[i])
  }

  lemma UpperMeans(s: string, t: string)
    ensures Upper(s) == Upper(t) <==> SameWord(s, t)
  {
    hide SameLetter;
    if |s| == |t| {
      forall i | 0 <= i < |s| ensures Upper(s)[i] == Upper(t)[i] <==> SameLetter(s[i], t[i]) {
        SameLetterSameUpper(s[i], t[i]);
      }
    }
  }

  lemma UpperStep(c: char, s: string)
    ensures Upper([c] + s) == [UpperChar(c)] + Upper(s)
  {
  }

  lemma NormaliseStep(s: string)
    requires s != ""
    ensures NormaliseReference(s) ==
      (if LetterOrDigit(s[0]) then [UpperChar(s[0])] else []) + NormaliseReference(s[1..])
  {
    AlnumIsLetterOrDigit(s[0]);
    UpperStep(s[0], OnlyAlnum(s[1..]));
  }

  /** Two references have one normal form exactly when they name the same number. */
  lemma {:induction false} NormalFormMeans(x: string, y: string)
    ensures NormaliseReference(x) == NormaliseReference(y) <==> Alike(x, y)
    decreases |x| + |y|
  {
    hide NormaliseReference, LetterOrDigit, SameLetter;
    NormaliseNothing();
    if x != "" {
      NormaliseStep(x);
    }
    if y != "" {
      NormaliseStep(y);
    }
    if x != "" && !LetterOrDigit(x[0]) {
      NormalFormMeans(x[1..], y);
    } else if y != "" && !LetterOrDigit(y[0]) {
      NormalFormMeans(x, y[1..]);
    } else if x != "" && y != "" {
      NormalFormMeans(x[1..], y[1..]);
      SameLetterSameUpper(x[0], y[0]);
      var u, v := [UpperChar(x[0])] + NormaliseReference(x[1..]), [UpperChar(y[0])] + NormaliseReference(y[1..]);
      if u == v {
        assert u[0] == v[0] && u[1..] == v[1..];
      }
    }
  }

  lemma AlikeItself(x: string)
    ensures Alike(x, x)
  {
    NormalFormMeans(x, x);
  }

  lemma SameWordItself(s: string)
    ensures SameWord(s, s)
  {
  }

  lemma NormaliseNothing()
    ensures NormaliseReference("") == ""
  {
  }

  lemma {:induction false} NormaliseJoins(x: string, y: string)
    ensures NormaliseReference(x + y) == NormaliseReference(x) + NormaliseReference(y)
  {
    hide NormaliseReference, LetterOrDigit;
    NormaliseNothing();
    if x == "" {
      assert x + y == y;
    } else {
      NormaliseStep(x);
      NormaliseStep(x + y);
      assert (x + y)[1..] == x[1..] + y;
      NormaliseJoins(x[1..], y);
    }
  }

  lemma NormaliseOne(c: char)
    ensures NormaliseReference([c]) == if LetterOrDigit(c) then [UpperChar(c)] else ""
  {
    hide NormaliseReference, LetterOrDigit;
    NormaliseStep([c]);
    assert [c][1..] == "";
    NormaliseNothing();
  }

  /** Three laws that fix the normal form: a character that is neither letter nor digit changes nothing,
      wherever it is put in; nor does the case of a letter; and upper-case letters and digits are kept. */
  lemma NormalFormLaws(x: string, c: char, d: char, y: string)
    ensures !LetterOrDigit(c) ==> NormaliseReference(x + [c] + y) == NormaliseReference(x + y)
    ensures SameLetter(c, d) ==> NormaliseReference(x + [c] + y) == NormaliseReference(x + [d] + y)
    ensures (c in DIGITS || c in UPPER) ==>
      NormaliseReference(x + [c] + y) == NormaliseReference(x) + [c] + NormaliseReference(y)
  {
    hide NormaliseReference, LetterOrDigit, SameLetter;
    NormaliseJoins(x + [c], y);
    NormaliseJoins(x, [c]);
    NormaliseJoins(x + [d], y);
    NormaliseJoins(x, [d]);
    NormaliseJoins(x, y);
    NormaliseOne(c);
    NormaliseOne(d);
    SameLetterSameUpper(c, d);
    if SameLetter(c, d) {
      SameLettersBothCount(c, d);
    }
    if (c in DIGITS || c in UPPER) {
      KeptCharacters(c);
    }
  }

  lemma SameLettersBothCount(c: char, d: char)
    requires SameLetter(c, d)
    ensures LetterOrDigit(c) <==> LetterOrDigit(d)
  {
  }

  lemma KeptCharacters(c: char)
    requires (c in DIGITS || c in UPPER)
    ensures LetterOrDigit(c) && UpperChar(c) == c
  {
  }

  // ---- joined material ----------------------------------------------------------------

  const BAR: string := "|"

  function InvoiceMaterial(vendorId: string, reference: string, currency: string, amountText: string): string {
    vendorId + BAR + (NormaliseReference(reference) + BAR + (Upper(currency) + BAR + amountText))
  }

  function OutcomeText(outcome: Outcome): string {
    match outcome
    case ApproveForPosting => "APPROVE_FOR_POSTING"
    case HoldForInformation => "HOLD_FOR_INFORMATION"
    case RejectDuplicate => "REJECT_DUPLICATE"
    case RejectInvalid => "REJECT_INVALID"
    case EscalateControlReview => "ESCALATE_CONTROL_REVIEW"
  }

  function KeyMaterial(
      runId: string, approvalId: string, outcome: Outcome, amountText: string, currency: string,
      vendorId: string): string
  {
    runId + BAR + (approvalId + BAR + (OutcomeText(outcome) + BAR +
      (amountText + BAR + (currency + BAR + vendorId))))
  }

  predicate BarFree(s: string) {
    '|' !in s
  }

  lemma {:induction false} OnlyAlnumIsBarFree(s: string)
    ensures forall i :: 0 <= i < |OnlyAlnum(s)| ==> IsAlnum(OnlyAlnum(s)[i])
  {
    if s != "" {
      OnlyAlnumIsBarFree(s[1..]);
    }
  }

  lemma NormalisedIsBarFree(reference: string)
    ensures BarFree(NormaliseReference(reference))
  {
    OnlyAlnumIsBarFree(reference);
  }

  lemma UpperKeepsBarFree(s: string)
    requires BarFree(s)
    ensures BarFree(Upper(s))
  {
  }

  /** Two joins agree on both halves when neither left half contains the separator. */
  lemma SplitFirst(a: string, x: string, b: string, y: string)
    requires BarFree(a) && BarFree(b)
    requires a + BAR + x == b + BAR + y
    ensures a == b && x == y
  {
    var s := a + BAR + x;
    assert s[|a|] == '|' && s[|b|] == '|';
    assert forall i :: 0 <= i < |a| ==> s[i] != '|';
    assert forall i :: 0 <= i < |b| ==> s[i] != '|';
    assert |a| == |b|;
    assert a == s[..|a|] == b;
    assert x == s[|a| + 1..] == y;
  }

  /** Two joins agree on both halves when neither right half contains the separator. */
  lemma SplitLast(x: string, a: string, y: string, b: string)
    requires BarFree(a) && BarFree(b)
    requires x + BAR + a == y + BAR + b
    ensures x == y && a == b
  {
    var s := x + BAR + a;
    assert s[|x|] == '|' && s[|y|] == '|';
    assert forall i :: |x| < i < |s| ==> s[i] != '|';
    assert forall i :: |y| < i < |s| ==> s[i] != '|';
    assert |x| == |y|;
    assert x == s[..|x|] == y;
    assert a == s[|x| + 1..] == b;
  }

  lemma JoinAssociates(a: string, b: string, c: string)
    ensures a + BAR + (b + BAR + c) == (a + BAR + b) + BAR + c
  {
  }

  /** The invoice material determines its four parts even when the vendor identifier contains the
      separator, provided the currency and the amount do not. */
  lemma InvoiceMaterialIsInjective(
      v1: string, r1: string, c1: string, m1: string, v2: string, r2: string, c2: string, m2: string)
    requires BarFree(c1) && BarFree(c2) && BarFree(m1) && BarFree(m2)
    requires InvoiceMaterial(v1, r1, c1, m1) == InvoiceMaterial(v2, r2, c2, m2)
    ensures v1 == v2 && Alike(r1, r2) && SameWord(c1, c2) && m1 == m2
  {
    var n1, n2 := NormaliseReference(r1), NormaliseReference(r2);
    var u1, u2 := Upper(c1), Upper(c2);
    NormalisedIsBarFree(r1);
    NormalisedIsBarFree(r2);
    UpperKeepsBarFree(c1);
    UpperKeepsBarFree(c2);
    JoinAssociates(n1, u1, m1);
    JoinAssociates(n2, u2, m2);
    JoinAssociates(v1, n1 + BAR + u1, m1);
    JoinAssociates(v2, n2 + BAR + u2, m2);
    SplitLast(v1 + BAR + (n1 + BAR + u1), m1, v2 + BAR + (n2 + BAR + u2), m2);
    JoinAssociates(v1, n1, u1);
    JoinAssociates(v2, n2, u2);
    SplitLast(v1 + BAR + n1, u1, v2 + BAR + n2, u2);
    SplitLast(v1, n1, v2, n2);
    NormalFormMeans(r1, r2);
    UpperMeans(c1, c2);
  }

  /** A decision key determines every fact folded into it, for separator-free identifiers, amounts and
      currencies: changing the amount, the currency or the vendor always changes the key. */
  lemma KeyMaterialIsInjective(
      r1: string, a1: string, o1: Outcome, m1: string, c1: string, v1: string,
      r2: string, a2: string, o2: Outcome, m2: string, c2: string, v2: string)
    requires BarFree(r1) && BarFree(a1) && BarFree(m1) && BarFree(c1)
    requires BarFree(r2) && BarFree(a2) && BarFree(m2) && BarFree(c2)
    requires KeyMaterial(r1, a1, o1, m1, c1, v1) == KeyMaterial(r2, a2, o2, m2, c2, v2)
    ensures r1 == r2 && a1 == a2 && o1 == o2 && m1 == m2 && c1 == c2 && v1 == v2
  {
    OutcomeTextIsBarFree(o1);
    OutcomeTextIsBarFree(o2);
    var x1, x2 := CurrencyTail(c1, v1), CurrencyTail(c2, v2);
    var y1, y2 := m1 + BAR + x1, m2 + BAR + x2;
    var z1, z2 := OutcomeText(o1) + BAR + y1, OutcomeText(o2) + BAR + y2;
    SplitFirst(r1, a1 + BAR + z1, r2, a2 + BAR + z2);
    SplitFirst(a1, z1, a2, z2);
    SplitFirst(OutcomeText(o1), y1, OutcomeText(o2), y2);
    OutcomeTextIsInjective(o1, o2);
    SplitFirst(m1, x1, m2, x2);
    SplitFirst(c1, v1, c2, v2);
  }

  function CurrencyTail(currency: string, vendorId: string): string {
    currency + BAR + vendorId
  }

  lemma OutcomeTextIsBarFree(o: Outcome)
    ensures BarFree(OutcomeText(o))
  {
  }

  lemma OutcomeTextIsInjective(o1: Outcome, o2: Outcome)
    requires OutcomeText(o1) == OutcomeText(o2)
    ensures o1 == o2
  {
    assert OutcomeText(o1)[0] == OutcomeText(o2)[0];
    assert |OutcomeText(o1)| == |OutcomeText(o2)|;
  }

  // ---- the constraint and the duplicate rule agree ------------------------------------

  /** The four fields on which two invoices are the same invoice. */
  datatype InvoiceIdentity = InvoiceIdentity(vendorId: string, reference: string, currency: string, gross: Dec)

  /** The duplicate rule's exact match: vendor, normalised number, currency and gross amount. */
  predicate SameInvoice(x: InvoiceIdentity, y: InvoiceIdentity) {
    x.vendorId == y.vendorId &&
    Alike(x.reference, y.reference) &&
    x.currency == y.currency &&
    AmountOf(x.gross) == AmountOf(y.gross)
  }

  function FingerprintOf(x: InvoiceIdentity): string {
    InvoiceMaterial(x.vendorId, x.reference, x.currency, Text(x.gross))
  }

  predicate UpperCaseCode(currency: string) {
    |currency| == 3 && forall i :: 0 <= i < 3 ==> 'A' <= currency[i] <= 'Z'
  }

  lemma UpperFixesCodes(currency: string)
    requires UpperCaseCode(currency)
    ensures Upper(currency) == currency && BarFree(currency)
  {
  }

  lemma SameCodes(s: string, t: string)
    requires UpperCaseCode(s) && UpperCaseCode(t) && SameWord(s, t)
    ensures s == t
  {
    UpperMeans(s, t);
    UpperFixesCodes(s);
    UpperFixesCodes(t);
  }

  /** For upper-case currency codes, equal fingerprints are exactly the exact matches whose two amounts
      were written with the same exponent. */
  lemma FingerprintAgreesWithRule(x: InvoiceIdentity, y: InvoiceIdentity)
    requires UpperCaseCode(x.currency) && UpperCaseCode(y.currency)
    ensures FingerprintOf(x) == FingerprintOf(y) <==> SameInvoice(x, y) && x.gross.exponent == y.gross.exponent
  {
    UpperFixesCodes(x.currency);
    UpperFixesCodes(y.currency);
    TextIsBarFree(x.gross);
    TextIsBarFree(y.gross);
    if FingerprintOf(x) == FingerprintOf(y) {
      InvoiceMaterialIsInjective(x.vendorId, x.reference, x.currency, Text(x.gross),
        y.vendorId, y.reference, y.currency, Text(y.gross));
      TextIsInjective(x.gross, y.gross);
      SameCodes(x.currency, y.currency);
    } else if SameInvoice(x, y) && x.gross.exponent == y.gross.exponent {
      SameExponentSameAmount(x.gross, y.gross);
      NormalFormMeans(x.reference, y.reference);
    }
  }

  /** The concrete failing input: 100.0 and 100.00 are one amount to the rule and two to the
      constraint. */
  lemma ScaleHidesADuplicate()
    ensures
      var x := InvoiceIdentity("V", "INV-1", "AUD", Dec(1000, -1));
      var y := InvoiceIdentity("V", "INV-1", "AUD", Dec(10000, -2));
      SameInvoice(x, y) && FingerprintOf(x) != FingerprintOf(y)
  {
    hide Alike;
    var x := InvoiceIdentity("V", "INV-1", "AUD", Dec(1000, -1));
    var y := InvoiceIdentity("V", "INV-1", "AUD", Dec(10000, -2));
    AlikeItself("INV-1");
    assert Pow10(1) == 10 && Pow10(2) == 100;
    FingerprintAgreesWithRule(x, y);
  }
}
