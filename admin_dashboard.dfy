/** The order search on the admin dashboard (src/pages/AdminDashboard.tsx). It is
    the filter of `OrderList` without the contact-person match, over mock data that
    never changes. */
module AdminDashboard {
  import opened Text
  import opened OrderList

  /** The dashboard's `matchesSearch`: customer name or id only. */
  predicate MatchesSearch(o: Order, searchTerm: string) {
    var term := ToLower(searchTerm);
    Contains(ToLower(o.customerName), term) || Contains(ToLower(o.id), term)
  }

  predicate Listed(o: Order, searchTerm: string, filterStatus: string) {
    MatchesSearch(o, searchTerm) && MatchesStatus(o, filterStatus)
  }

  /** `filteredOrders` over `dashboardData.recentOrders`. */
  function FilteredOrders(recentOrders: seq<Order>, searchTerm: string, filterStatus: string): (r: seq<Order>)
    ensures forall k :: 0 <= k < |r| ==> Listed(r[k], searchTerm, filterStatus)
    ensures forall k :: 0 <= k < |recentOrders| ==>
      (Listed(recentOrders[k], searchTerm, filterStatus) ==> recentOrders[k] in r)
  {
    Filter(recentOrders, o => Listed(o, searchTerm, filterStatus))
  }

  lemma FilteredIsSubsequence(recentOrders: seq<Order>, searchTerm: string, filterStatus: string)
    ensures SubsequenceOf(FilteredOrders(recentOrders, searchTerm, filterStatus), recentOrders)
  {
    FilterIsSubsequence(recentOrders, o => Listed(o, searchTerm, filterStatus));
  }

  lemma EmptySearchListsAll(recentOrders: seq<Order>)
    ensures FilteredOrders(recentOrders, "", "all") == recentOrders
  {
    forall k | 0 <= k < |recentOrders| ensures MatchesSearch(recentOrders[k], "") {
      ContainsEmpty(ToLower(recentOrders[k].customerName));
    }
    FilterKeepsAll(recentOrders, o => Listed(o, "", "all"));
  }

  /** The dashboard lists a subsequence of what the order table would show. */
  lemma DashboardNarrowerThanOrderList(orders: seq<Order>, searchTerm: string, filterStatus: string)
    ensures SubsequenceOf(FilteredOrders(orders, searchTerm, filterStatus),
                          OrderList.FilteredOrders(orders, searchTerm, filterStatus))
  {
    FilterWeaker(orders, o => Listed(o, searchTerm, filterStatus),
                 o => OrderList.MatchesSearch(o, searchTerm) && MatchesStatus(o, filterStatus));
  }

  /** A one-letter term that is not a letter of `s` does not occur in it. */
  lemma AbsentLetter(s: string, c: char)
    requires forall k :: 0 <= k < |s| ==> s[k] != c
    ensures !Contains(s, [c])
  {
    forall i | 0 <= i < |s| ensures !OccursAt(s, [c], i) {
      assert s[i..i + 1][0] == s[i];
    }
    ContainsMeansOccurs(s, [c]);
  }

  /** A term found only in the contact person keeps an order in the order table but
      not on the dashboard. */
  lemma ContactPersonMatchIgnored()
    ensures var o := Order("ord-1", "acme", "kim", "", "", [], "medium", "pending", "", "", 0);
      && OrderList.MatchesSearch(o, "k")
      && !MatchesSearch(o, "k")
      && FilteredOrders([o], "k", "all") == []
  {
    var o := Order("ord-1", "acme", "kim", "", "", [], "medium", "pending", "", "", 0);
    assert ToLower("k") == "k";
    assert ToLower(o.contactPerson)[..1] == "k";
    assert StartsWith(ToLower(o.contactPerson), "k");
    AbsentLetter(ToLower(o.customerName), 'k');
    AbsentLetter(ToLower(o.id), 'k');
    assert !Listed(o, "k", "all");
  }

  /** The mock list is fixed, so relaxing the search (to a part of itself) or the
      filter (to 'all') only brings orders back. */
  lemma RelaxingBringsOrdersBack(recentOrders: seq<Order>, term: string, term': string,
                                 filter: string, filter': string)
    requires Contains(term, term')
    requires filter' == "all" || filter' == filter
    ensures SubsequenceOf(FilteredOrders(recentOrders, term, filter), FilteredOrders(recentOrders, term', filter'))
  {
    ContainsToLower(term, term');
    forall o: Order | MatchesSearch(o, term) ensures MatchesSearch(o, term') {
      if Contains(ToLower(o.customerName), ToLower(term)) {
        ContainsTransitive(ToLower(term'), ToLower(term), ToLower(o.customerName));
      } else {
        ContainsTransitive(ToLower(term'), ToLower(term), ToLower(o.id));
      }
    }
    FilterWeaker(recentOrders, o => Listed(o, term, filter), o => Listed(o, term', filter'));
  }
}
