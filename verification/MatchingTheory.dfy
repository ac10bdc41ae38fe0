/** What the planner guarantees: priority, bounds, an uncrossed book, order independence, optimality. */
module MatchingTheory {
  import opened Rows
  import opened Matching

  function Book(side: Side, bs: seq<Quote>, ss: seq<Quote>): seq<Quote> { if side.Buy? then bs else ss }

  function Party(side: Side, p: Pairing): Quote { if side.Buy? then p.buy else p.sell }

  // How much of the order `id` on `side` the pairings trade.
  function Traded(side: Side, ps: seq<Pairing>, id: Id): int {
    if ps == [] then 0
    else (if Party(side, ps[0]).id == id then ps[0].quantity else 0) + Traded(side, ps[1..], id)
  }

  // ---------------------------------------------------------------- bounds and priority

  lemma StepKeeps(s: seq<Quote>, quantity: int)
    requires s != [] && Positive(s) && DistinctIds(s) && 0 < quantity <= s[0].remaining
    ensures Positive(After(s, quantity)) && DistinctIds(After(s, quantity))
    ensures forall side :: Sorted(side, s) ==> Sorted(side, After(s, quantity))
  {
    var t := After(s, quantity);
    var skipped := |s| - |t|;
    forall i | 0 <= i < |t| ensures t[i] == s[i + skipped].(remaining := t[i].remaining) {
    }
  }

  ghost predicate Stranger(s: seq<Quote>, id: Id) { forall i :: 0 <= i < |s| ==> s[i].id != id }

  lemma StaysStranger(s: seq<Quote>, quantity: int, id: Id)
    requires s != [] && 0 < quantity <= s[0].remaining && Stranger(s, id)
    ensures Stranger(After(s, quantity), id)
  {
  }

  // The position an order of the book has after one step of the matching, unless that step used it up.
  function Shifted(s: seq<Quote>, quantity: int, k: nat): nat
    requires s != []
    requires s[0].remaining == quantity ==> k > 0
  {
    if s[0].remaining == quantity then k - 1 else k
  }

  lemma Locate(s: seq<Quote>, quantity: int, k: nat)
    requires s != [] && 0 < quantity <= s[0].remaining && k < |s| && !(k == 0 && s[0].remaining == quantity)
    ensures Shifted(s, quantity, k) < |After(s, quantity)|
    ensures After(s, quantity)[Shifted(s, quantity, k)]
         == s[k].(remaining := s[k].remaining - if k == 0 then quantity else 0)
  {
  }

  // An order used up by the first step is gone from the book.
  lemma UsedUp(side: Side, bs: seq<Quote>, ss: seq<Quote>, quantity: int)
    requires Positive(bs) && Positive(ss) && DistinctIds(bs) && DistinctIds(ss)
    requires bs != [] && ss != [] && quantity == Min(bs[0].remaining, ss[0].remaining)
    requires Book(side, bs, ss)[0].remaining == quantity
    ensures Positive(After(bs, quantity)) && Positive(After(ss, quantity))
    ensures Traded(side, Cross(After(bs, quantity), After(ss, quantity)), Book(side, bs, ss)[0].id) == 0
  {
    StepKeeps(bs, quantity);
    StepKeeps(ss, quantity);
    StrangersTradeNothing(side, After(bs, quantity), After(ss, quantity), Book(side, bs, ss)[0].id);
  }

  lemma {:induction false} StrangersTradeNothing(side: Side, bs: seq<Quote>, ss: seq<Quote>, id: Id)
    requires Positive(bs) && Positive(ss) && DistinctIds(bs) && DistinctIds(ss)
    requires Stranger(Book(side, bs, ss), id)
    ensures Traded(side, Cross(bs, ss), id) == 0
    decreases |bs| + |ss|
  {
    if bs == [] || ss == [] || bs[0].price < ss[0].price {
    } else {
      var quantity := Min(bs[0].remaining, ss[0].remaining);
      StepKeeps(bs, quantity);
      StepKeeps(ss, quantity);
      StaysStranger(Book(side, bs, ss), quantity, id);
      StrangersTradeNothing(side, After(bs, quantity), After(ss, quantity), id);
    }
  }

  lemma TradedStep(side: Side, bs: seq<Quote>, ss: seq<Quote>, k: nat)
    requires Positive(bs) && Positive(ss) && DistinctIds(bs) && DistinctIds(ss)
    requires bs != [] && ss != [] && bs[0].price >= ss[0].price && k < |Book(side, bs, ss)|
    ensures var quantity := Min(bs[0].remaining, ss[0].remaining);
            var book := Book(side, bs, ss);
            var rest := Cross(After(bs, quantity), After(ss, quantity));
            Traded(side, Cross(bs, ss), book[k].id)
            == (if k == 0 then quantity else 0) + Traded(side, rest, book[k].id)
  {
  }

  // No order is overfilled.
  lemma {:induction false} NoOverfill(side: Side, bs: seq<Quote>, ss: seq<Quote>, k: nat)
    requires Positive(bs) && Positive(ss) && DistinctIds(bs) && DistinctIds(ss)
    requires k < |Book(side, bs, ss)|
    ensures 0 <= Traded(side, Cross(bs, ss), Book(side, bs, ss)[k].id) <= Book(side, bs, ss)[k].remaining
    decreases |bs| + |ss|
  {
    if bs == [] || ss == [] || bs[0].price < ss[0].price {
    } else {
      var quantity := Min(bs[0].remaining, ss[0].remaining);
      var book := Book(side, bs, ss);
      TradedStep(side, bs, ss, k);
      StepKeeps(bs, quantity);
      StepKeeps(ss, quantity);
      if k == 0 && book[0].remaining == quantity {
        UsedUp(side, bs, ss, quantity);
      } else {
        Locate(book, quantity, k);
        NoOverfill(side, After(bs, quantity), After(ss, quantity), Shifted(book, quantity, k));
      }
    }
  }

  // An order is reached only after every order ahead of it is filled.
  lemma {:induction false} FilledInOrder(side: Side, bs: seq<Quote>, ss: seq<Quote>, i: nat, k: nat)
    requires Positive(bs) && Positive(ss) && DistinctIds(bs) && DistinctIds(ss)
    requires i < k < |Book(side, bs, ss)|
    requires Traded(side, Cross(bs, ss), Book(side, bs, ss)[k].id) > 0
    ensures Traded(side, Cross(bs, ss), Book(side, bs, ss)[i].id) == Book(side, bs, ss)[i].remaining
    decreases |bs| + |ss|
  {
    if bs == [] || ss == [] || bs[0].price < ss[0].price {
    } else {
      var quantity := Min(bs[0].remaining, ss[0].remaining);
      var book := Book(side, bs, ss);
      TradedStep(side, bs, ss, k);
      TradedStep(side, bs, ss, i);
      StepKeeps(bs, quantity);
      StepKeeps(ss, quantity);
      if i == 0 && book[0].remaining == quantity {
        UsedUp(side, bs, ss, quantity);
      } else {
        Locate(book, quantity, i);
        Locate(book, quantity, k);
        FilledInOrder(side, After(bs, quantity), After(ss, quantity),
                      Shifted(book, quantity, i), Shifted(book, quantity, k));
      }
    }
  }

  // Two orders that are both left unfilled no longer cross.
  lemma {:induction false} Uncrossed(bs: seq<Quote>, ss: seq<Quote>, i: nat, j: nat)
    requires Positive(bs) && Positive(ss) && DistinctIds(bs) && DistinctIds(ss)
    requires Sorted(Buy, bs) && Sorted(Sell, ss)
    requires i < |bs| && j < |ss|
    requires Traded(Buy, Cross(bs, ss), bs[i].id) < bs[i].remaining
    requires Traded(Sell, Cross(bs, ss), ss[j].id) < ss[j].remaining
    ensures bs[i].price < ss[j].price
    decreases |bs| + |ss|
  {
    if bs[0].price < ss[0].price {
    } else {
      var quantity := Min(bs[0].remaining, ss[0].remaining);
      TradedStep(Buy, bs, ss, i);
      TradedStep(Sell, bs, ss, j);
      StepKeeps(bs, quantity);
      StepKeeps(ss, quantity);
      var bs', ss' := After(bs, quantity), After(ss, quantity);
      if i == 0 && bs[0].remaining == quantity {
        UsedUp(Buy, bs, ss, quantity);
      } else if j == 0 && ss[0].remaining == quantity {
        UsedUp(Sell, bs, ss, quantity);
      } else {
        Locate(bs, quantity, i);
        Locate(ss, quantity, j);
        Uncrossed(bs', ss', Shifted(bs, quantity, i), Shifted(ss, quantity, j));
      }
    }
  }

  // n buys and m sells make at most n + m - 1 matches.
  lemma {:induction false} FewMatches(bs: seq<Quote>, ss: seq<Quote>)
    requires Positive(bs) && Positive(ss)
    ensures |Cross(bs, ss)| <= |bs| + |ss|
    ensures bs != [] && ss != [] ==> |Cross(bs, ss)| <= |bs| + |ss| - 1
    decreases |bs| + |ss|
  {
    if bs == [] || ss == [] || bs[0].price < ss[0].price {
    } else {
      var quantity := Min(bs[0].remaining, ss[0].remaining);
      var bs', ss' := After(bs, quantity), After(ss, quantity);
      FewMatches(bs', ss');
      if bs' == [] || ss' == [] {
        assert Cross(bs', ss') == [];
      }
    }
  }

  ghost predicate SameOrder(a: Quote, b: Quote) { a == b.(remaining := a.remaining) }

  // A crossing that is not empty pairs the two best orders first.
  lemma CrossBegins(bs: seq<Quote>, ss: seq<Quote>)
    requires Positive(bs) && Positive(ss) && Cross(bs, ss) != []
    ensures bs != [] && ss != [] && bs[0].price >= ss[0].price
    ensures var quantity := Min(bs[0].remaining, ss[0].remaining);
            && 0 < quantity && Positive(After(bs, quantity)) && Positive(After(ss, quantity))
            && Cross(bs, ss) == [Pairing(bs[0], ss[0], quantity)] + Cross(After(bs, quantity), After(ss, quantity))
  {
  }

  lemma AfterOrigin(s: seq<Quote>, quantity: int, i: nat)
    requires s != [] && 0 < quantity <= s[0].remaining && i < |After(s, quantity)|
    ensures var at := if s[0].remaining == quantity then i + 1 else i;
            at < |s| && SameOrder(After(s, quantity)[i], s[at])
  {
  }

  // Every pairing joins an order of each book, at a positive quantity and crossing prices.
  lemma {:induction false} PairingOrigin(bs: seq<Quote>, ss: seq<Quote>, k: nat) returns (i: nat, j: nat)
    requires Positive(bs) && Positive(ss) && DistinctIds(bs) && DistinctIds(ss)
    requires k < |Cross(bs, ss)|
    ensures i < |bs| && j < |ss|
    ensures SameOrder(Cross(bs, ss)[k].buy, bs[i]) && SameOrder(Cross(bs, ss)[k].sell, ss[j])
    ensures 0 < Cross(bs, ss)[k].quantity && bs[i].price >= ss[j].price
    decreases |bs| + |ss|
  {
    CrossBegins(bs, ss);
    hide Cross, After;
    if k == 0 {
      i, j := 0, 0;
    } else {
      var quantity := Min(bs[0].remaining, ss[0].remaining);
      StepKeeps(bs, quantity);
      StepKeeps(ss, quantity);
      i, j := PairingOrigin(After(bs, quantity), After(ss, quantity), k - 1);
      AfterOrigin(bs, quantity, i);
      AfterOrigin(ss, quantity, j);
      i := if bs[0].remaining == quantity then i + 1 else i;
      j := if ss[0].remaining == quantity then j + 1 else j;
    }
  }

  // ---------------------------------------------------------------- order independence

  lemma {:induction false} InsertSorts(side: Side, q: Quote, s: seq<Quote>)
    requires Sorted(side, s)
    ensures Sorted(side, Insert(side, q, s))
  {
    if s == [] || Ahead(side, q, s[0]) {
    } else {
      InsertSorts(side, q, s[1..]);
      InsertPermutes(side, q, s[1..]);
      var rest := Insert(side, q, s[1..]);
      forall j | 0 <= j < |rest| ensures Ahead(side, s[0], rest[j]) {
        assert rest[j] in multiset(rest);
        assert rest[j] == q || rest[j] in s[1..];
      }
    }
  }

  lemma {:induction false} SortSorts(side: Side, s: seq<Quote>)
    ensures Sorted(side, Sort(side, s))
  {
    if s != [] {
      SortSorts(side, s[1..]);
      InsertSorts(side, s[0], Sort(side, s[1..]));
    }
  }

  lemma SameHead(side: Side, s: seq<Quote>, t: seq<Quote>)
    requires Sorted(side, s) && Sorted(side, t) && multiset(s) == multiset(t) && DistinctIds(s) && s != []
    ensures t != [] && s[0] == t[0]
  {
    assert s[0] in multiset(t);
    var i :| 0 <= i < |t| && t[i] == s[0];
    assert t[0] in multiset(s);
    var j :| 0 <= j < |s| && s[j] == t[0];
  }

  lemma TailMembers(s: seq<Quote>)
    requires s != []
    ensures multiset(s[1..]) == multiset(s) - multiset{s[0]}
  {
    assert s == [s[0]] + s[1..];
  }

  // With distinct ids the comparator is a strict total order, so a sorted sequence is determined by its members:
  // whatever algorithm sorts the book, and whatever order the query returned it in, the result is the same.
  lemma {:induction false} SortedUnique(side: Side, s: seq<Quote>, t: seq<Quote>)
    requires Sorted(side, s) && Sorted(side, t) && multiset(s) == multiset(t) && DistinctIds(s)
    ensures s == t
  {
    if s == [] {
      assert |multiset(t)| == 0;
    } else {
      SameHead(side, s, t);
      TailMembers(s);
      TailMembers(t);
      hide Ahead;
      SortedUnique(side, s[1..], t[1..]);
      assert s == [s[0]] + s[1..] && t == [t[0]] + t[1..];
    }
  }

  // An order's multiplicity among the eligible ones is its multiplicity in the input, or none.
  lemma {:induction false} EligiblesCount(side: Side, s: seq<Quote>, q: Quote)
    ensures multiset(Eligibles(side, s))[q] == if Eligible(side, q) then multiset(s)[q] else 0
  {
    if s != [] {
      EligiblesCount(side, s[1..], q);
      assert s == [s[0]] + s[1..];
    }
  }

  lemma DistinctByCount(s: seq<Quote>, t: seq<Quote>)
    requires DistinctIds(s) && forall q :: multiset(t)[q] <= multiset(s)[q]
    ensures DistinctIds(t)
  {
    forall i, j | 0 <= i < j < |t| ensures t[i].id != t[j].id {
      if t[i].id == t[j].id {
        assert t[i] in multiset(t) && t[j] in multiset(t);
        var a :| 0 <= a < |s| && s[a] == t[i];
        var b :| 0 <= b < |s| && s[b] == t[j];
        assert a == b;
        TwiceCounted(t, i, j);
        OnceCounted(s, a);
      }
    }
  }

  lemma TwiceCounted(t: seq<Quote>, i: nat, j: nat)
    requires i < j < |t| && t[i] == t[j]
    ensures multiset(t)[t[i]] >= 2
  {
    assert t == t[..j] + [t[j]] + t[j + 1..];
    assert t[i] in t[..j];
  }

  lemma OnceCounted(s: seq<Quote>, a: nat)
    requires DistinctIds(s) && a < |s|
    ensures multiset(s)[s[a]] == 1
  {
    assert s == s[..a] + [s[a]] + s[a + 1..];
    assert s[a] !in s[..a] && s[a] !in s[a + 1..];
  }

  lemma OrderBookFacts(side: Side, s: seq<Quote>)
    requires DistinctIds(s)
    ensures DistinctIds(OrderBook(side, s)) && Positive(OrderBook(side, s)) && Sorted(side, OrderBook(side, s))
    ensures forall q :: q in OrderBook(side, s) <==> q in s && Eligible(side, q)
  {
    OrderBookMembers(side, s);
    SortSorts(side, Eligibles(side, s));
    var book := OrderBook(side, s);
    forall q ensures multiset(book)[q] == if Eligible(side, q) then multiset(s)[q] else 0 {
      EligiblesCount(side, s, q);
    }
    DistinctByCount(s, book);
    forall q ensures q in book <==> q in s && Eligible(side, q) {
      assert q in book <==> q in multiset(book);
      assert q in s <==> q in multiset(s);
    }
  }

  lemma OrderBookIsOrderIndependent(side: Side, s: seq<Quote>, t: seq<Quote>)
    requires DistinctIds(s) && multiset(s) == multiset(t)
    ensures OrderBook(side, s) == OrderBook(side, t)
  {
    OrderBookFacts(side, s);
    OrderBookMembers(side, s);
    OrderBookMembers(side, t);
    SortSorts(side, Eligibles(side, t));
    forall q ensures multiset(OrderBook(side, s))[q] == multiset(OrderBook(side, t))[q] {
      EligiblesCount(side, s, q);
      EligiblesCount(side, t, q);
    }
    SortedUnique(side, OrderBook(side, s), OrderBook(side, t));
  }

  lemma OneRegionPermutes(s: seq<Quote>, t: seq<Quote>)
    requires multiset(s) == multiset(t) && OneRegion(s)
    ensures OneRegion(t) && (s == [] <==> t == []) && (s != [] ==> s[0].region == t[0].region)
  {
    assert |s| == |multiset(s)| == |multiset(t)| == |t|;
    forall i | 0 <= i < |t| ensures t[i].region == s[0].region {
      assert t[i] in multiset(s);
    }
  }

  // The plan does not depend on the order in which the open orders were read.
  lemma PlanIsOrderIndependent(buys: seq<Quote>, sells: seq<Quote>, buys': seq<Quote>, sells': seq<Quote>)
    requires DistinctIds(buys) && DistinctIds(sells)
    requires multiset(buys) == multiset(buys') && multiset(sells) == multiset(sells')
    ensures Plan(buys, sells) == Plan(buys', sells')
  {
    OrderBookIsOrderIndependent(Buy, buys, buys');
    OrderBookIsOrderIndependent(Sell, sells, sells');
    if OneRegion(buys) { OneRegionPermutes(buys, buys'); }
    if OneRegion(buys') { OneRegionPermutes(buys', buys); }
    if OneRegion(sells) { OneRegionPermutes(sells, sells'); }
    if OneRegion(sells') { OneRegionPermutes(sells', sells); }
  }

  // ---------------------------------------------------------------- the planner as a whole

  function Input(side: Side, buys: seq<Quote>, sells: seq<Quote>): seq<Quote> { if side.Buy? then buys else sells }

  function PlannedFill(side: Side, buys: seq<Quote>, sells: seq<Quote>, q: Quote): int {
    Traded(side, Pairings(buys, sells), q.id)
  }

  function PlaceInBook(s: seq<Quote>, q: Quote): (k: nat)
    requires q in s
    ensures k < |s| && s[k] == q
  {
    if s[0] == q then 0 else 1 + PlaceInBook(s[1..], q)
  }

  lemma BooksFollowPriority(side: Side, s: seq<Quote>, i: nat, k: nat)
    requires i < |s| && k < |s| && Sorted(side, s) && DistinctIds(s) && s[i] != s[k] && Ahead(side, s[i], s[k])
    ensures i < k
  {
  }

  // Price-time priority over the input: no overfill, and an order is filled at all only if every eligible order
  // of its side with a better price, or the same price and an earlier place, is filled completely.
  lemma PriceTimePriority(buys: seq<Quote>, sells: seq<Quote>, side: Side, first: Quote, second: Quote)
    requires DistinctIds(buys) && DistinctIds(sells)
    requires first in Input(side, buys, sells) && second in Input(side, buys, sells) && first != second
    requires Eligible(side, first) && Eligible(side, second) && Ahead(side, first, second)
    ensures 0 <= PlannedFill(side, buys, sells, first) <= first.remaining
    ensures 0 <= PlannedFill(side, buys, sells, second) <= second.remaining
    ensures PlannedFill(side, buys, sells, second) > 0 ==>
              PlannedFill(side, buys, sells, first) == first.remaining
  {
    OrderBookFacts(Buy, buys);
    OrderBookFacts(Sell, sells);
    var bs, ss := OrderBook(Buy, buys), OrderBook(Sell, sells);
    var i, k := PlaceInBook(Book(side, bs, ss), first), PlaceInBook(Book(side, bs, ss), second);
    BooksFollowPriority(side, Book(side, bs, ss), i, k);
    hide OrderBook, Cross, Traded, Sorted, Ahead;
    NoOverfill(side, bs, ss, i);
    NoOverfill(side, bs, ss, k);
    if PlannedFill(side, buys, sells, second) > 0 {
      FilledInOrder(side, bs, ss, i, k);
    }
  }

  // A buy and a sell of the input that the plan leaves partly unfilled do not cross.
  lemma PlanLeavesNoCross(buys: seq<Quote>, sells: seq<Quote>, b: Quote, s: Quote)
    requires DistinctIds(buys) && DistinctIds(sells)
    requires b in buys && s in sells && Eligible(Buy, b) && Eligible(Sell, s)
    requires PlannedFill(Buy, buys, sells, b) < b.remaining && PlannedFill(Sell, buys, sells, s) < s.remaining
    ensures b.price < s.price
  {
    OrderBookFacts(Buy, buys);
    OrderBookFacts(Sell, sells);
    var bs, ss := OrderBook(Buy, buys), OrderBook(Sell, sells);
    assert b in bs && s in ss;
    var i :| 0 <= i < |bs| && bs[i] == b;
    var j :| 0 <= j < |ss| && ss[j] == s;
    Uncrossed(bs, ss, i, j);
  }

  // Each announced match names an order of each side, has a positive quantity, and its price lies between the
  // two limits; there are at most n + m - 1 of them.
  lemma MatchesAreWellFormed(buys: seq<Quote>, sells: seq<Quote>, k: nat) returns (b: Quote, s: Quote)
    requires DistinctIds(buys) && DistinctIds(sells)
    requires Plan(buys, sells).Planned? && k < |Plan(buys, sells).matches|
    ensures b in buys && s in sells && Eligible(Buy, b) && Eligible(Sell, s)
    ensures var m := Plan(buys, sells).matches[k];
            m.buyOrder == b.id && m.sellOrder == s.id && m.item == b.item && m.region == b.region &&
            m.quantity > 0 && s.price <= m.price <= b.price
    ensures |Plan(buys, sells).matches| <= |buys| + |sells| - 1
  {
    OrderBookFacts(Buy, buys);
    OrderBookFacts(Sell, sells);
    var bs, ss := OrderBook(Buy, buys), OrderBook(Sell, sells);
    var i, j := PairingOrigin(bs, ss, k);
    b, s := bs[i], ss[j];
    FewMatches(bs, ss);
    OrderBookLength(Buy, buys);
    OrderBookLength(Sell, sells);
  }

  lemma {:induction false} EligiblesLength(side: Side, s: seq<Quote>)
    ensures |Eligibles(side, s)| <= |s|
  {
    if s != [] { EligiblesLength(side, s[1..]); }
  }

  lemma OrderBookLength(side: Side, s: seq<Quote>)
    ensures |OrderBook(side, s)| <= |s|
  {
    EligiblesLength(side, s);
    SortPermutes(side, Eligibles(side, s));
    assert |OrderBook(side, s)| == |multiset(OrderBook(side, s))|;
    assert |Eligibles(side, s)| == |multiset(Eligibles(side, s))|;
  }
}
