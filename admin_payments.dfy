/** `client/src/pages/admin/AdminPayments.tsx`: the payment search and status filter. */
module AdminPayments {
  import opened Wrappers
  import opened Types
  import opened Seqs
  import opened Text

  /** Search on the transaction id when there is one, or on the payer's name when the user
      is populated; "" matches all. */
  predicate MatchesSearch(p: Payment, searchTerm: string) {
    searchTerm == ""
    || (p.transactionId.Some? && MatchesIgnoringCase(p.transactionId.value, searchTerm))
    || (p.user.UserObject? && MatchesIgnoringCase(p.user.name, searchTerm))
  }

  predicate PaymentMatches(p: Payment, searchTerm: string, statusFilter: string) {
    MatchesSearch(p, searchTerm) && (statusFilter == "" || p.status == statusFilter)
  }

  function MatcherOf(searchTerm: string, statusFilter: string): Payment -> bool {
    (p: Payment) => PaymentMatches(p, searchTerm, statusFilter)
  }

  /** `filteredPayments`: exactly the matching payments. */
  function FilteredPayments(payments: seq<Payment>, searchTerm: string, statusFilter: string): (r: seq<Payment>)
    ensures forall x :: x in r <==> x in payments && PaymentMatches(x, searchTerm, statusFilter)
  {
    Filter(payments, MatcherOf(searchTerm, statusFilter))
  }

  /** With both filters empty every payment is listed; any filter keeps their order. */
  lemma AllShownByDefault(payments: seq<Payment>, searchTerm: string, statusFilter: string)
    ensures FilteredPayments(payments, "", "") == payments
    ensures IsSubsequence(FilteredPayments(payments, searchTerm, statusFilter), payments)
  {
    FilterKeepsAll(payments, MatcherOf("", ""));
    FilterIsSubsequence(payments, MatcherOf(searchTerm, statusFilter));
  }

  /** A payment with no transaction id whose user is only an id is found by no non-empty
      search; one whose transaction id is the search term always is. */
  lemma SearchReach(p: Payment, searchTerm: string)
    ensures searchTerm != "" && p.transactionId.None? && p.user.UserId? ==> !MatchesSearch(p, searchTerm)
    ensures p.transactionId == Some(searchTerm) ==> MatchesSearch(p, searchTerm)
  {
    if p.transactionId == Some(searchTerm) {
      FieldMatchesItself(searchTerm);
    }
  }
}
