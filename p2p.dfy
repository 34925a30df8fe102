/** The peer-to-peer order book page: a fixed list of orders and the filter
    that decides which of them are shown for the selected tab, payment method
    and trader search. The list itself is a value the page never replaces. */
module P2P {
  import opened Text
  import Seqs

  datatype Side = Buy | Sell

  /** One order of the book; price is in thousandths, amounts in whole units. */
  datatype Order = Order(
    id: int,
    userName: string,
    side: Side,
    price: int,
    amount: int,
    minAmount: int,
    maxAmount: int,
    paymentMethods: seq<string>,
    isActive: bool,
    completionRate: int,
    trades: int)

  /** The payment-method choice that admits every order. */
  const AllMethods: string := "all"

  /** A user on the buy tab sees sellers, and one on the sell tab sees buyers. */
  function CounterSide(tab: Side): (s: Side)
    ensures s != tab
  {
    if tab == Buy then Sell else Buy
  }

  predicate MatchesPayment(o: Order, payment: string)
  {
    payment == AllMethods || payment in o.paymentMethods
  }

  /** Case-insensitive substring search on the trader's name. */
  predicate MatchesSearch(o: Order, term: string)
  {
    Contains(Lower(o.userName), Lower(term))
  }

  /** The predicate passed to `orders.filter`: the order is on the other
      side, takes the payment method, matches the search and is active. An
      empty search term matches every trader. */
  predicate Shown(o: Order, tab: Side, payment: string, term: string): (b: bool)
    ensures b ==> o.side != tab && o.isActive
    ensures b ==> payment == AllMethods || payment in o.paymentMethods
    ensures term == "" ==> (b <==> o.side != tab && MatchesPayment(o, payment) && o.isActive)
  {
    assert Lower("") == "";
    ContainsEmpty(Lower(o.userName));
    && o.side == CounterSide(tab)
    && MatchesPayment(o, payment)
    && MatchesSearch(o, term)
    && o.isActive
  }

  function ShownBy(tab: Side, payment: string, term: string): Order -> bool
  {
    o => Shown(o, tab, payment, term)
  }

  /** `filteredOrders`: the shown orders, in book order. */
  function FilteredOrders(orders: seq<Order>, tab: Side, payment: string, term: string): (r: seq<Order>)
    ensures |r| <= |orders|
    ensures Seqs.IsSubsequence(r, orders)
    ensures forall i :: 0 <= i < |r| ==> r[i].isActive && r[i].side == CounterSide(tab)
    ensures forall i :: 0 <= i < |r| ==> payment != AllMethods ==> payment in r[i].paymentMethods
    ensures forall i :: 0 <= i < |r| ==> Contains(Lower(r[i].userName), Lower(term))
    ensures forall o :: o in r <==> o in orders && Shown(o, tab, payment, term)
    ensures forall o :: multiset(r)[o] == if Shown(o, tab, payment, term) then multiset(orders)[o] else 0
  {
    Seqs.FilterIsSubsequence(ShownBy(tab, payment, term), orders);
    Seqs.FilterCounts(ShownBy(tab, payment, term), orders);
    Seqs.Filter(ShownBy(tab, payment, term), orders)
  }

  /** Filtering the filtered list with the same settings changes nothing. */
  lemma FilterOrdersIdempotent(orders: seq<Order>, tab: Side, payment: string, term: string)
    ensures FilteredOrders(FilteredOrders(orders, tab, payment, term), tab, payment, term)
            == FilteredOrders(orders, tab, payment, term)
  {
    Seqs.FilterIdempotent(ShownBy(tab, payment, term), orders);
  }

  /** Two search terms that lower-case alike show the same orders. */
  lemma SearchIgnoresCase(orders: seq<Order>, tab: Side, payment: string, term1: string, term2: string)
    requires Lower(term1) == Lower(term2)
    ensures FilteredOrders(orders, tab, payment, term1) == FilteredOrders(orders, tab, payment, term2)
  {
    Seqs.FilterCongruent(ShownBy(tab, payment, term1), ShownBy(tab, payment, term2), orders);
  }

  /** Typing the search in capitals shows the same orders. */
  lemma UpperCaseSearchSame(orders: seq<Order>, tab: Side, payment: string, term: string)
    ensures FilteredOrders(orders, tab, payment, Upper(term)) == FilteredOrders(orders, tab, payment, term)
  {
    LowerOfUpper(term);
    SearchIgnoresCase(orders, tab, payment, Upper(term), term);
  }

  /** An empty search admits every name: only tab, payment and activity filter. */
  lemma EmptySearchAdmitsAll(orders: seq<Order>, tab: Side, payment: string)
    ensures forall o :: o in FilteredOrders(orders, tab, payment, "") <==>
              o in orders && o.side == CounterSide(tab) && MatchesPayment(o, payment) && o.isActive
  {
    forall o: Order ensures MatchesSearch(o, "") {
      assert Lower("") == "";
      ContainsEmpty(Lower(o.userName));
    }
  }

  /** With the wildcard no order is dropped for its payment methods: any
      specific choice shows a subsequence of what the wildcard shows. */
  lemma WildcardShowsMore(orders: seq<Order>, tab: Side, payment: string, term: string)
    ensures Seqs.IsSubsequence(FilteredOrders(orders, tab, payment, term),
                               FilteredOrders(orders, tab, AllMethods, term))
  {
    Seqs.FilterMonotone(ShownBy(tab, payment, term), ShownBy(tab, AllMethods, term), orders);
  }

  /** No order is shown on both tabs. */
  lemma TabsDisjoint(orders: seq<Order>, payment: string, term: string, o: Order)
    ensures !(o in FilteredOrders(orders, Buy, payment, term) && o in FilteredOrders(orders, Sell, payment, term))
  {
  }

  /** The page's demonstration book. */
  const DemoOrders: seq<Order> := [
    Order(1, "CryptoKing", Sell, 998, 50000, 100, 5000, ["PayPal", "Bank Transfer"], true, 98, 1247),
    Order(2, "TraderPro", Sell, 999, 25000, 50, 2500, ["Cash App", "Venmo"], true, 100, 856),
    Order(3, "SafeTrader", Buy, 1001, 30000, 200, 3000, ["Zelle", "Bank Transfer"], true, 95, 432)
  ]

  /** Filtering a three-order book, written out element by element. */
  lemma FilterThree(p: Order -> bool, a: Order, b: Order, c: Order)
    ensures Seqs.Filter(p, [a, b, c])
            == (if p(a) then [a] else []) + (if p(b) then [b] else []) + (if p(c) then [c] else [])
  {
    assert [c][1..] == [];
    assert Seqs.Filter(p, [c]) == (if p(c) then [c] else []);
    assert [b, c][1..] == [c];
    assert Seqs.Filter(p, [b, c]) == (if p(b) then [b] else []) + (if p(c) then [c] else []);
    assert [a, b, c][1..] == [b, c];
  }

  /** The filters behind the two tabs, on the demonstration book. */
  lemma DemoFilters()
    ensures Seqs.Filter(ShownBy(Buy, AllMethods, ""), DemoOrders) == DemoOrders[..2]
    ensures Seqs.Filter(ShownBy(Sell, AllMethods, ""), DemoOrders) == DemoOrders[2..]
  {
    var o1, o2, o3 := DemoOrders[0], DemoOrders[1], DemoOrders[2];
    var buy, sell := ShownBy(Buy, AllMethods, ""), ShownBy(Sell, AllMethods, "");
    assert DemoOrders == [o1, o2, o3];
    forall o: Order ensures MatchesSearch(o, "") {
      assert Lower("") == "";
      ContainsEmpty(Lower(o.userName));
    }
    assert buy(o1) && buy(o2) && !buy(o3);
    assert !sell(o1) && !sell(o2) && sell(o3);
    FilterThree(buy, o1, o2, o3);
    FilterThree(sell, o1, o2, o3);
  }

  /** On the demonstration book, the buy tab lists the two sellers and the
      sell tab the one buyer. */
  lemma DemoTabs()
    ensures FilteredOrders(DemoOrders, Buy, AllMethods, "") == DemoOrders[..2]
    ensures FilteredOrders(DemoOrders, Sell, AllMethods, "") == DemoOrders[2..]
  {
    DemoFilters();
  }
}
