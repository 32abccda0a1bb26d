/** When exactly one invoice can be posted twice
    (src/ap_agent/persistence/repository.py:192-210).

    The uniqueness constraint is over the amount as it is written. One amount has many written forms, and two
    submissions of one invoice that use different ones both go through. */
module DoublePosting {
  import opened Prelude
  import opened Domain
  import opened Store
  import opened Protocol
  import opened Invariant
  import opened Decimals
  import opened Fingerprint
  import opened Postings
  import opened Witness
  import Theorems

  // ---- two postings -------------------------------------------------------------------

  /** Two different decisions to post one invoice, whose amounts were written as `x` and `y`. */
  predicate BothPosted(s: Store, j: string, k: string, x: Dec, y: Dec) {
    && j in s.decisions && k in s.decisions && j != k
    && s.decisions[j].receipt.outcome == s.decisions[k].receipt.outcome == ApproveForPosting
    && Theorems.SameReference(s.decisions[j].request, s.decisions[k].request)
    && s.decisions[j].request.runId in s.runs && s.runs[s.decisions[j].request.runId].written == x
    && s.decisions[k].request.runId in s.runs && s.runs[s.decisions[k].request.runId].written == y
  }

  ghost predicate CanBothBePosted(cfg: Settings, x: Dec, y: Dec) {
    exists events, j, k :: BothPosted(After(cfg, INITIAL, events).store, j, k, x, y)
  }

  function PostingTwice(x: Dec, y: Dec): seq<Event> {
    Posting(Plain, "1", x, "A") + Posting(Plain, "2", y, "B")
  }

  lemma DifferentKeys(x: Dec, y: Dec)
    ensures KeyFor(Claim(Plain, "1", x, "A")) != KeyFor(Claim(Plain, "2", y, "B"))
  {
    hide Text, KeyMaterial;
    TextIsBarFree(x);
    TextIsBarFree(y);
    if KeyFor(Claim(Plain, "1", x, "A")) == KeyFor(Claim(Plain, "2", y, "B")) {
      KeyMaterialIsInjective("1", "A", ApproveForPosting, Text(x), "AUD", "V",
        "2", "B", ApproveForPosting, Text(y), "AUD", "V");
    }
  }

  lemma DifferentFingerprints(x: Dec, y: Dec)
    requires x.exponent != y.exponent
    ensures FingerprintFor(Claim(Plain, "1", x, "A")) != FingerprintFor(Claim(Plain, "2", y, "B"))
  {
    hide Text, InvoiceMaterial;
    TextIsBarFree(x);
    TextIsBarFree(y);
    if FingerprintFor(Claim(Plain, "1", x, "A")) == FingerprintFor(Claim(Plain, "2", y, "B")) {
      InvoiceMaterialIsInjective("V", "INV-1", "AUD", Text(x), "V", "INV-1", "AUD", Text(y));
      TextIsInjective(x, y);
    }
  }

  /** If the two are written differently, both submissions of the invoice go through. */
  lemma BothArePosted(cfg: Settings, x: Dec, y: Dec)
    requires cfg.maxSteps >= 7 && AmountOf(x) == AmountOf(y) > 0.0 && x.exponent != y.exponent
    ensures BothPosted(After(cfg, INITIAL, PostingTwice(x, y)).store,
      KeyFor(Claim(Plain, "1", x, "A")), KeyFor(Claim(Plain, "2", y, "B")), x, y)
  {
    hide After, Text, KeyMaterial, InvoiceMaterial, Posting, Theorems.SystemOk, AmountOf, Alike, SameWord;
    AlikeItself("INV-1");
    SameWordItself("AUD");
    FirstIsPosted(cfg, Plain, x);
    var sys := After(cfg, INITIAL, Posting(Plain, "1", x, "A"));
    DifferentKeys(x, y);
    DifferentFingerprints(x, y);
    PostingRecords(cfg, sys, Plain, "2", y, "B");
    Theorems.AfterJoins(cfg, INITIAL, Posting(Plain, "1", x, "A"), Posting(Plain, "2", y, "B"));
  }

  /** By value, exactly: one invoice can be posted twice if and only if its amount is written with two
      different exponents. */
  lemma DoublePostingExactlyWhen(cfg: Settings, x: Dec, y: Dec)
    requires cfg.maxSteps >= 7 && AmountOf(x) == AmountOf(y) > 0.0
    ensures CanBothBePosted(cfg, x, y) <==> x.exponent != y.exponent
  {
    hide After, Text, AmountOf, BothPosted, PostingTwice;
    if x.exponent != y.exponent {
      BothArePosted(cfg, x, y);
    } else if CanBothBePosted(cfg, x, y) {
      var events, j, k :| BothPosted(After(cfg, INITIAL, events).store, j, k, x, y);
      NotAlike(cfg, events, j, k, x, y);
    }
  }

  lemma NotAlike(cfg: Settings, events: seq<Event>, j: string, k: string, x: Dec, y: Dec)
    requires BothPosted(After(cfg, INITIAL, events).store, j, k, x, y)
    ensures AmountOf(x) == AmountOf(y) ==> x.exponent != y.exponent
  {
    hide After, Text, AmountOf, Theorems.SameReference;
    Theorems.NoInvoicePostedTwice(cfg, events, j, k);
    Theorems.TextRendersAmount(cfg, events, j);
    Theorems.TextRendersAmount(cfg, events, k);
  }

  /** A reachable store that holds a posting of 100.0 and one of 100.00 for the same invoice. */
  lemma HundredIsPostedTwice(cfg: Settings)
    requires cfg.maxSteps >= 7
    ensures CanBothBePosted(cfg, Dec(1000, -1), Dec(10000, -2))
  {
    assert Pow10(1) == 10 && Pow10(2) == 100;
    hide CanBothBePosted;
    DoublePostingExactlyWhen(cfg, Dec(1000, -1), Dec(10000, -2));
  }
}
