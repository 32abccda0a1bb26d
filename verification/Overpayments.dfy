/** Two kinds of posting that the value of the order does not bound, each with a history that records one. */
module Overpayments {
  import opened Prelude
  import opened Domain
  import opened Store
  import opened Protocol
  import opened Decimals
  import opened Postings
  import opened Witness
  import Matching
  import MatchingBounds
  import Money

  /** The store holds a posting of this amount, for a run that carries this case. */
  predicate IsPosted(s: Store, p: Profile, written: Dec) {
    "1" in s.runs && IsCase(s.runs["1"], p, written) &&
    exists k :: k in s.decisions && s.decisions[k].request.runId == "1" &&
      s.decisions[k].receipt.outcome == ApproveForPosting && s.decisions[k].receipt.amount == AmountOf(written)
  }

  lemma CaseIsPosted(cfg: Settings, p: Profile, written: Dec)
    requires cfg.maxSteps >= 7 && AmountOf(written) > 0.0 && !p.Overseas? && !p.Seen?
    ensures IsPosted(After(cfg, INITIAL, Posting(p, "1", written, "A")).store, p, written)
  {
    hide After, AmountOf, Text, KeyFor, FingerprintFor, Posting, IsCase;
    FirstIsPosted(cfg, p, written);
    var s := After(cfg, INITIAL, Posting(p, "1", written, "A")).store;
    assert KeyFor(Claim(p, "1", written, "A")) in s.decisions;
  }

  /** An order of one line, received once, worth half the amount. */
  lemma OrderIsWorthHalf(amount: real)
    ensures MatchingBounds.OrderValue(CitedTwice.Order(amount), 1) == amount / 2.0
  {
    var order := CitedTwice.Order(amount);
    assert order.receipts[..0] == [];
    assert Matching.QuantityReceived(order.receipts, 1) == 1.0;
    assert MatchingBounds.OrderValue(order, 0) == 0.0;
    assert MatchingBounds.EvidencedValue(order, 0) == amount / 2.0;
  }

  /** One order line cited by two invoice lines: each is checked alone against the same receipt, and twice the
      value of the whole order is posted. */
  lemma CitedTwiceIsPaidTwice(cfg: Settings, written: Dec)
    requires cfg.maxSteps >= 7 && AmountOf(written) > 300.0
    ensures var s := After(cfg, INITIAL, Posting(CitedTwice, "1", written, "A")).store;
      IsPosted(s, CitedTwice, written) &&
      var order := s.runs["1"].gathered.order.value;
      var invoice := s.runs["1"].request.ToInvoice(DateOf(MOMENT));
      AmountOf(written) == 2.0 * MatchingBounds.OrderValue(order, |order.lines|) &&
      AmountOf(written) >
        MatchingBounds.OrderValue(order, |order.lines|) + 100.0 + MatchingBounds.RoundingRoom(invoice)
  {
    hide After, AmountOf, Posting, MatchingBounds.OrderValue, Money.WholeCents;
    CaseIsPosted(cfg, CitedTwice, written);
    OrderIsWorthHalf(AmountOf(written));
  }

  /** An invoice in another currency, on an order of 1.00 that permits conversion: any amount is posted. */
  lemma ForeignIsPostedAtAnyAmount(cfg: Settings, written: Dec)
    requires cfg.maxSteps >= 7 && AmountOf(written) > 0.0
    ensures var s := After(cfg, INITIAL, Posting(Foreign, "1", written, "A")).store;
      IsPosted(s, Foreign, written) &&
      s.runs["1"].request.currency != s.runs["1"].gathered.order.value.currency &&
      s.runs["1"].gathered.order.value.totalValue == 1.0
  {
    hide After, AmountOf, Posting;
    CaseIsPosted(cfg, Foreign, written);
  }
}
