/** The order and return tabs and the list slices of web/pages/helpers.go.

The source compares statuses after strings.ToLower(strings.TrimSpace(..)).  That function
of Unicode text is the parameter `norm` here; nothing is assumed of it except, where a
lemma says so, that it leaves the names of the tabs alone.  AsciiNorm is the function on
ASCII text, and AsciiKeepsTabs shows that it does. */
module Tabs {

  datatype CartItem = CartItem(product: string, quantity: int, delivery: string)

  datatype Order = Order(
    number: string, status: string, payment: string, date: string, total: string, items: seq<CartItem>)

  datatype Return = Return(id: string, status: string, reason: string, amount: string)

  const NO_ORDER: Order := Order("", "", "", "", "", [])

  type Norm = string -> string

  // ----- selecting from a list -----

  /** The elements that satisfy `p`, in order. */
  function Select<T>(xs: seq<T>, p: T -> bool): (r: seq<T>)
    ensures |r| <= |xs|
  {
    if xs == [] then []
    else
      var last := |xs| - 1;
      Select(xs[..last], p) + if p(xs[last]) then [xs[last]] else []
  }

  /** `ys` consists of the elements of `xs` at the increasing positions `at`, and these are
      exactly the positions whose element satisfies `p`. */
  ghost predicate Picks<T>(xs: seq<T>, p: T -> bool, ys: seq<T>, at: seq<nat>) {
    && |at| == |ys|
    && (forall k :: 0 <= k < |at| ==> at[k] < |xs| && ys[k] == xs[at[k]] && p(ys[k]))
    && (forall j, k :: 0 <= j < k < |at| ==> at[j] < at[k])
    && (forall i :: 0 <= i < |xs| && p(xs[i]) ==> i in at)
  }

  lemma {:induction false} SelectPicks<T>(xs: seq<T>, p: T -> bool) returns (at: seq<nat>)
    ensures Picks(xs, p, Select(xs, p), at)
  {
    at := [];
    if xs == [] {
    } else {
      var last := |xs| - 1;
      at := SelectPicks(xs[..last], p);
      PicksNext(xs, p, Select(xs[..last], p), at);
      if p(xs[last]) {
        at := at + [last];
      }
    }
  }

  lemma PicksNext<T>(xs: seq<T>, p: T -> bool, ys: seq<T>, at: seq<nat>)
    requires xs != [] && Picks(xs[..|xs| - 1], p, ys, at)
    ensures var last := |xs| - 1;
            if p(xs[last]) then Picks(xs, p, ys + [xs[last]], at + [last]) else Picks(xs, p, ys, at)
  {
  }

  lemma SelectNext<T>(xs: seq<T>, i: nat, p: T -> bool)
    requires i < |xs|
    ensures Select(xs[..i + 1], p) == Select(xs[..i], p) + if p(xs[i]) then [xs[i]] else []
  {
    assert xs[..i + 1][..i] == xs[..i];
  }

  lemma {:induction false} SelectHolds<T>(xs: seq<T>, p: T -> bool)
    ensures forall x :: x in Select(xs, p) <==> x in xs && p(x)
  {
    if xs == [] {
    } else {
      var last := |xs| - 1;
      SelectHolds(xs[..last], p);
      assert xs == xs[..last] + [xs[last]];
    }
  }

  // ----- orders -----

  /** The test of lines 121-123 on normalised text. */
  predicate OrderMatches(tab: string, status: string) {
    (tab == "active" && status != "delivered" && status != "cancelled")
    || (tab == "delivered" && status == "delivered")
    || (tab == "cancelled" && status == "cancelled")
  }

  function OrderTest(tab: string, norm: Norm): Order -> bool {
    (o: Order) => OrderMatches(tab, norm(o.status))
  }

  function OrderTab(orders: seq<Order>, tab: string, norm: Norm): seq<Order> {
    if norm(tab) == "" then orders
    else Select(orders, OrderTest(norm(tab), norm))
  }

  /** orderSubset, lines 113-129. */
  method OrderSubset(orders: seq<Order>, status: string, norm: Norm) returns (filtered: seq<Order>)
    ensures filtered == OrderTab(orders, status, norm)
    ensures norm(status) == "" ==> filtered == orders
    ensures norm(status) == "delivered" ==> forall o :: o in filtered <==> o in orders && norm(o.status) == "delivered"
    ensures norm(status) == "cancelled" ==> forall o :: o in filtered <==> o in orders && norm(o.status) == "cancelled"
    ensures norm(status) == "active" ==>
              forall o :: o in filtered <==> o in orders && norm(o.status) != "delivered" && norm(o.status) != "cancelled"
    ensures norm(status) != "" ==> exists at :: Picks(orders, OrderTest(norm(status), norm), filtered, at)
  {
    var tab := norm(status);
    if tab == "" {
      return orders;
    }
    ghost var p := OrderTest(tab, norm);
    filtered := [];
    for i := 0 to |orders|
      invariant filtered == Select(orders[..i], p)
    {
      var orderStatus := norm(orders[i].status);
      var matches :=
        (tab == "active" && orderStatus != "delivered" && orderStatus != "cancelled")
        || (tab == "delivered" && orderStatus == "delivered")
        || (tab == "cancelled" && orderStatus == "cancelled");
      SelectNext(orders, i, p);
      if matches {
        filtered := filtered + [orders[i]];
      }
    }
    assert orders[..|orders|] == orders;
    var at := SelectPicks(orders, p);
    SelectHolds(orders, p);
  }

  /** orderCount, lines 131-133. */
  function OrderCount(orders: seq<Order>, status: string, norm: Norm): nat {
    |OrderTab(orders, status, norm)|
  }

  ghost predicate KeepsOrderTabs(norm: Norm) {
    norm("") == "" && norm("active") == "active" && norm("delivered") == "delivered" && norm("cancelled") == "cancelled"
  }

  /** Every order is under exactly one of the three tabs: together they hold each order as
      often as the list does, no order is under two of them, and the counts add up. */
  lemma {:induction false} OrderTabsCover(orders: seq<Order>, norm: Norm)
    requires KeepsOrderTabs(norm)
    ensures var active, delivered, cancelled :=
              OrderTab(orders, "active", norm), OrderTab(orders, "delivered", norm), OrderTab(orders, "cancelled", norm);
            && multiset(active) + multiset(delivered) + multiset(cancelled) == multiset(orders)
            && multiset(active) !! multiset(delivered) && multiset(active) !! multiset(cancelled)
            && multiset(delivered) !! multiset(cancelled)
            && OrderCount(orders, "active", norm) + OrderCount(orders, "delivered", norm)
               + OrderCount(orders, "cancelled", norm) == OrderCount(orders, "", norm)
  {
    var active, delivered, cancelled :=
      OrderTest("active", norm), OrderTest("delivered", norm), OrderTest("cancelled", norm);
    forall i | 0 <= i < |orders|
      ensures ExactlyOne(active(orders[i]), delivered(orders[i]), cancelled(orders[i]))
    {
      OneTabEach(norm(orders[i].status));
    }
    ThreeWay(orders, active, delivered, cancelled);
    ThreeWayCount(orders, active, delivered, cancelled);
    Apart(orders, active, delivered);
    Apart(orders, active, cancelled);
    Apart(orders, delivered, cancelled);
  }

  lemma Apart<T>(xs: seq<T>, p: T -> bool, q: T -> bool)
    requires forall i :: 0 <= i < |xs| ==> !(p(xs[i]) && q(xs[i]))
    ensures multiset(Select(xs, p)) !! multiset(Select(xs, q))
  {
    SelectSatisfies(xs, p);
    SelectSatisfies(xs, q);
  }

  lemma OneTabEach(status: string)
    ensures OrderMatches("active", status) <==> !OrderMatches("delivered", status) && !OrderMatches("cancelled", status)
    ensures !(OrderMatches("delivered", status) && OrderMatches("cancelled", status))
  {
  }

  predicate ExactlyOne(a: bool, b: bool, c: bool) {
    (a && !b && !c) || (!a && b && !c) || (!a && !b && c)
  }

  ghost predicate SplitsInThree<T>(xs: seq<T>, p: T -> bool, q: T -> bool, r: T -> bool) {
    forall i :: 0 <= i < |xs| ==> ExactlyOne(p(xs[i]), q(xs[i]), r(xs[i]))
  }

  lemma {:induction false} ThreeWay<T>(xs: seq<T>, p: T -> bool, q: T -> bool, r: T -> bool)
    requires SplitsInThree(xs, p, q, r)
    ensures multiset(Select(xs, p)) + multiset(Select(xs, q)) + multiset(Select(xs, r)) == multiset(xs)
  {
    if xs == [] {
    } else {
      var last := |xs| - 1;
      var init, x := xs[..last], xs[last];
      assert SplitsInThree(init, p, q, r);
      ThreeWay(init, p, q, r);
      SelectBag(xs, p);
      SelectBag(xs, q);
      SelectBag(xs, r);
      OneMore(multiset(Select(init, p)), multiset(Select(init, q)), multiset(Select(init, r)), x, p(x), q(x), r(x));
      LastBag(xs);
    }
  }

  lemma LastBag<T>(xs: seq<T>)
    requires xs != []
    ensures multiset(xs) == multiset(xs[..|xs| - 1]) + multiset{xs[|xs| - 1]}
  {
    assert xs == xs[..|xs| - 1] + [xs[|xs| - 1]];
  }

  lemma {:induction false} ThreeWayCount<T>(xs: seq<T>, p: T -> bool, q: T -> bool, r: T -> bool)
    requires SplitsInThree(xs, p, q, r)
    ensures |Select(xs, p)| + |Select(xs, q)| + |Select(xs, r)| == |xs|
  {
    if xs == [] {
    } else {
      ThreeWayCount(xs[..|xs| - 1], p, q, r);
    }
  }

  function One<T>(x: T, present: bool): multiset<T> {
    if present then multiset{x} else multiset{}
  }

  lemma OneMore<T>(a: multiset<T>, b: multiset<T>, c: multiset<T>, x: T, p: bool, q: bool, r: bool)
    requires ExactlyOne(p, q, r)
    ensures (a + One(x, p)) + (b + One(x, q)) + (c + One(x, r)) == (a + b + c) + multiset{x}
  {
  }

  lemma SelectBag<T>(xs: seq<T>, p: T -> bool)
    requires xs != []
    ensures var last := |xs| - 1;
            && multiset(Select(xs, p))
               == multiset(Select(xs[..last], p)) + One(xs[last], p(xs[last]))
            && |Select(xs, p)| == |Select(xs[..last], p)| + (if p(xs[last]) then 1 else 0)
  {
  }

  lemma {:induction false} SelectSatisfies<T>(xs: seq<T>, p: T -> bool)
    ensures forall x :: x in multiset(Select(xs, p)) ==> p(x) && x in xs
  {
    if xs == [] {
    } else {
      SelectSatisfies(xs[..|xs| - 1], p);
    }
  }

  /** A status that names no tab selects nothing. */
  lemma {:induction false} UnknownTabIsEmpty(orders: seq<Order>, status: string, norm: Norm)
    requires norm(status) !in {"", "active", "delivered", "cancelled"}
    ensures OrderTab(orders, status, norm) == []
  {
    var at := SelectPicks(orders, OrderTest(norm(status), norm));
    assert at == [] || OrderMatches(norm(status), norm(OrderTab(orders, status, norm)[0].status));
  }

  // ----- the normalisation on ASCII text -----

  predicate IsSpace(c: char) { c == ' ' || 9 <= c as int <= 13 }

  function LowerChar(c: char): char { if 'A' <= c <= 'Z' then (c as int + 32) as char else c }

  function Lower(s: string): string { seq(|s|, i requires 0 <= i < |s| => LowerChar(s[i])) }

  function TrimLeft(s: string): string {
    if s != [] && IsSpace(s[0]) then TrimLeft(s[1..]) else s
  }

  function TrimRight(s: string): string {
    if s != [] && IsSpace(s[|s| - 1]) then TrimRight(s[..|s| - 1]) else s
  }

  /** strings.ToLower(strings.TrimSpace(..)) of ASCII text. */
  function AsciiNorm(s: string): string { Lower(TrimRight(TrimLeft(s))) }

  /** Text with no space around it and no capital in it. */
  predicate Normal(s: string) {
    && (forall i :: 0 <= i < |s| ==> !('A' <= s[i] <= 'Z'))
    && (s != [] ==> !IsSpace(s[0]) && !IsSpace(s[|s| - 1]))
  }

  lemma {:induction false} TrimLeftFirst(s: string)
    ensures var r := TrimLeft(s); r != [] ==> !IsSpace(r[0])
  {
    if s == [] || !IsSpace(s[0]) {
    } else {
      TrimLeftFirst(s[1..]);
    }
  }

  lemma {:induction false} TrimRightEnds(s: string)
    ensures var r := TrimRight(s); r != [] ==> !IsSpace(r[|r| - 1]) && r[0] == s[0]
  {
    if s == [] || !IsSpace(s[|s| - 1]) {
    } else {
      TrimRightEnds(s[..|s| - 1]);
    }
  }

  /** Normalising gives normal text, and leaves exactly the normal text as it is. */
  lemma AsciiNormIsNormal(s: string)
    ensures Normal(AsciiNorm(s))
    ensures AsciiNorm(s) == s <==> Normal(s)
  {
    var left := TrimLeft(s);
    var trimmed := TrimRight(left);
    TrimLeftFirst(s);
    TrimRightEnds(left);
    assert forall i :: 0 <= i < |trimmed| ==> Lower(trimmed)[i] == LowerChar(trimmed[i]);
    assert |Lower(trimmed)| == |trimmed|;
    if Normal(s) {
      assert left == s && trimmed == s;
      assert Lower(s) == s;
    }
  }

  lemma {:induction false} TrimLeftDrops(s: string) returns (before: string)
    ensures s == before + TrimLeft(s) && forall c :: c in before ==> c == ' ' || 9 <= c as int <= 13
  {
    if s == [] || !IsSpace(s[0]) {
      before := "";
    } else {
      before := TrimLeftDrops(s[1..]);
      before := [s[0]] + before;
    }
  }

  lemma {:induction false} TrimRightDrops(s: string) returns (after: string)
    ensures s == TrimRight(s) + after && forall c :: c in after ==> c == ' ' || 9 <= c as int <= 13
  {
    if s == [] || !IsSpace(s[|s| - 1]) {
      after := "";
    } else {
      after := TrimRightDrops(s[..|s| - 1]);
      after := after + [s[|s| - 1]];
    }
  }

  /** Only the space around the text is dropped, and only capitals become something else:
      the small letter 32 places on. */
  lemma AsciiNormKeeps(s: string) returns (before: string, kept: string, after: string)
    ensures s == before + kept + after
    ensures forall c :: c in before || c in after ==> c == ' ' || 9 <= c as int <= 13
    ensures |AsciiNorm(s)| == |kept|
    ensures forall i :: 0 <= i < |kept| ==>
              AsciiNorm(s)[i] as int == if 'A' <= kept[i] <= 'Z' then kept[i] as int + 32 else kept[i] as int
  {
    before := TrimLeftDrops(s);
    after := TrimRightDrops(TrimLeft(s));
    kept := TrimRight(TrimLeft(s));
  }

  const TAB_NAMES: seq<string> := ["", "active", "delivered", "cancelled", "refunds", "closed", "refund closed"]

  lemma NamesAreNormal(s: string)
    requires s in TAB_NAMES
    ensures Normal(s)
  {
  }

  lemma NamesAreTabs(norm: Norm)
    requires forall s :: s in TAB_NAMES ==> norm(s) == s
    ensures KeepsOrderTabs(norm) && norm("refund closed") == "refund closed"
  {
    assert TAB_NAMES[0] == "" && TAB_NAMES[1] == "active" && TAB_NAMES[2] == "delivered"
        && TAB_NAMES[3] == "cancelled" && TAB_NAMES[6] == "refund closed";
  }

  /** It has what the lemmas of this module ask of `norm`. */
  lemma AsciiKeepsTabs(norm: Norm)
    requires norm == AsciiNorm
    ensures KeepsOrderTabs(norm) && norm("refund closed") == "refund closed"
  {
    forall s | s in TAB_NAMES ensures norm(s) == s {
      NamesAreNormal(s);
      AsciiNormIsNormal(s);
    }
    NamesAreTabs(norm);
  }

  // ----- slices -----

  /** firstOrder, lines 213-218. */
  function FirstOrder(orders: seq<Order>): Order {
    if orders == [] then NO_ORDER else orders[0]
  }

  /** orderSlice, lines 203-211: the start is clamped to the list. */
  method OrderSlice(orders: seq<Order>, start: int) returns (r: seq<Order>)
    ensures |r| == (if start <= 0 then |orders| else if start >= |orders| then 0 else |orders| - start)
    ensures exists skipped :: orders == skipped + r
  {
    var from := start;
    if from < 0 {
      from := 0;
    }
    if from > |orders| {
      from := |orders|;
    }
    assert orders == orders[..from] + orders[from..];
    return orders[from..];
  }

  /** The page of orders shows the first one and then the slice from 1: nothing is lost,
      nothing is shown twice. */
  method FirstAndRest(orders: seq<Order>) returns (first: Order, rest: seq<Order>)
    requires orders != []
    ensures [first] + rest == orders
  {
    first := FirstOrder(orders);
    rest := OrderSlice(orders, 1);
    var skipped :| orders == skipped + rest;
    assert |skipped| == 1;
  }

  function Clamp(i: int, lo: int, hi: int): int
    requires lo <= hi
  {
    if i < lo then lo else if i > hi then hi else i
  }

  function Slice<T>(products: seq<T>, start: int, end: int): seq<T> {
    var from := Clamp(start, 0, |products|);
    products[from..Clamp(end, from, |products|)]
  }

  /** productSlice, lines 175-189. */
  method ProductSlice<T>(products: seq<T>, start: int, end: int) returns (r: seq<T>)
    ensures r == Slice(products, start, end)
    ensures forall i :: 0 <= i < |products| && start <= i < end ==>
              var at := if start < 0 then i else i - start; at < |r| && r[at] == products[i]
    ensures forall at :: 0 <= at < |r| ==>
              var i := if start < 0 then at else at + start; i < end && i < |products| && r[at] == products[i]
  {
    var from, to := start, end;
    if from < 0 {
      from := 0;
    }
    if from > |products| {
      from := |products|;
    }
    if to < from {
      to := from;
    }
    if to > |products| {
      to := |products|;
    }
    return products[from..to];
  }

  /** Slices that meet join up, whatever the bounds, and bounds beyond the list give the
      whole of it. */
  lemma SlicesJoin<T>(products: seq<T>, a: int, b: int, c: int)
    requires a <= b <= c
    ensures Slice(products, a, b) + Slice(products, b, c) == Slice(products, a, c)
    ensures a <= 0 && |products| <= c ==> Slice(products, a, c) == products
  {
  }

  // ----- returns -----

  /** strings.Contains. */
  predicate Contains(s: string, part: string) {
    part <= s || (s != [] && Contains(s[1..], part))
  }

  lemma {:induction false} SuffixContains(s: string, i: nat, part: string)
    requires i <= |s| && part <= s[i..]
    ensures Contains(s, part)
  {
    if i == 0 {
    } else {
      SuffixContains(s[1..], i - 1, part);
    }
  }

  lemma {:induction false} OccursAt(s: string, part: string) returns (before: string, after: string)
    requires Contains(s, part)
    ensures s == before + part + after
  {
    if part <= s {
      before, after := "", s[|part|..];
    } else {
      before, after := OccursAt(s[1..], part);
      before := [s[0]] + before;
    }
  }

  /** It is true exactly of the texts in which the part occurs somewhere. */
  lemma ContainsExactly(s: string, part: string)
    ensures Contains(s, part) <==> exists before, after :: s == before + part + after
  {
    if Contains(s, part) {
      var before, after := OccursAt(s, part);
    }
    if before, after :| s == before + part + after {
      assert s[|before|..] == part + after;
      SuffixContains(s, |before|, part);
    }
  }

  /** The switches of lines 260-273 and 284-291. */
  predicate ReturnMatches(tab: string, status: string) {
    if tab == "refunds" then Contains(status, "refund")
    else if tab == "closed" then Contains(status, "closed")
    else !Contains(status, "refund") && !Contains(status, "closed")
  }

  function ReturnTest(tab: string, norm: Norm): Return -> bool {
    (r: Return) => ReturnMatches(tab, norm(r.status))
  }

  function ReturnTab(items: seq<Return>, tab: string, norm: Norm): seq<Return> {
    Select(items, ReturnTest(tab, norm))
  }

  /** returnCount, lines 256-276; it takes the name of the tab as it is. */
  method ReturnCount(items: seq<Return>, tab: string, norm: Norm) returns (count: nat)
    ensures count == |ReturnTab(items, tab, norm)|
  {
    ghost var p := ReturnTest(tab, norm);
    count := 0;
    for i := 0 to |items|
      invariant count == |Select(items[..i], p)|
    {
      SelectNext(items, i, p);
      var status := norm(items[i].status);
      if tab == "refunds" {
        if Contains(status, "refund") {
          count := count + 1;
        }
      } else if tab == "closed" {
        if Contains(status, "closed") {
          count := count + 1;
        }
      } else if !Contains(status, "refund") && !Contains(status, "closed") {
        count := count + 1;
      }
    }
    assert items[..|items|] == items;
  }

  /** returnSubset, lines 278-297; it normalises the name of the tab first. */
  method ReturnSubset(items: seq<Return>, tab: string, norm: Norm) returns (filtered: seq<Return>)
    ensures filtered == ReturnTab(items, norm(tab), norm)
    ensures norm(tab) == "refunds" ==> forall r :: r in filtered <==> r in items && Contains(norm(r.status), "refund")
    ensures norm(tab) == "closed" ==> forall r :: r in filtered <==> r in items && Contains(norm(r.status), "closed")
    ensures norm(tab) !in {"refunds", "closed"} ==>
              forall r :: r in filtered <==>
                r in items && !Contains(norm(r.status), "refund") && !Contains(norm(r.status), "closed")
    ensures exists at :: Picks(items, ReturnTest(norm(tab), norm), filtered, at)
  {
    var name := norm(tab);
    ghost var p := ReturnTest(name, norm);
    filtered := [];
    for i := 0 to |items|
      invariant filtered == Select(items[..i], p)
    {
      SelectNext(items, i, p);
      var status := norm(items[i].status);
      var matches;
      if name == "refunds" {
        matches := Contains(status, "refund");
      } else if name == "closed" {
        matches := Contains(status, "closed");
      } else {
        matches := !Contains(status, "refund") && !Contains(status, "closed");
      }
      if matches {
        filtered := filtered + [items[i]];
      }
    }
    assert items[..|items|] == items;
    var at := SelectPicks(items, p);
    SelectHolds(items, p);
  }

  /** The number on a tab is the number of returns under it, if the caller of returnCount
      normalises the name as returnSubset does. */
  method CountAgrees(items: seq<Return>, tab: string, norm: Norm) returns (count: nat, filtered: seq<Return>)
    ensures count == |filtered|
  {
    count := ReturnCount(items, norm(tab), norm);
    filtered := ReturnSubset(items, tab, norm);
  }

  function Both(norm: Norm): Return -> bool {
    (r: Return) => Contains(norm(r.status), "refund") && Contains(norm(r.status), "closed")
  }

  /** Any name other than "refunds" and "closed" stands for the tab of the other returns.
      The three tabs cover the list, and overlap exactly in the returns whose status
      mentions both a refund and a closed request. */
  lemma {:induction false} ReturnTabsOverlap(items: seq<Return>, other: string, norm: Norm)
    requires other !in {"refunds", "closed"}
    ensures |ReturnTab(items, other, norm)| + |ReturnTab(items, "refunds", norm)| + |ReturnTab(items, "closed", norm)|
         == |items| + |Select(items, Both(norm))|
  {
    if items == [] {
    } else {
      var last := |items| - 1;
      ReturnTabsOverlap(items[..last], other, norm);
      SelectBag(items, ReturnTest(other, norm));
      SelectBag(items, ReturnTest("refunds", norm));
      SelectBag(items, ReturnTest("closed", norm));
      SelectBag(items, Both(norm));
      TabNames(other, norm(items[last].status));
    }
  }

  lemma TabNames(other: string, status: string)
    requires other !in {"refunds", "closed"}
    ensures ReturnMatches("refunds", status) == Contains(status, "refund")
    ensures ReturnMatches("closed", status) == Contains(status, "closed")
    ensures ReturnMatches(other, status) == (!Contains(status, "refund") && !Contains(status, "closed"))
  {
  }

  /** So the tab counts add up to the length of the list exactly when no return mentions
      both. */
  lemma ReturnCountsAddUp(items: seq<Return>, other: string, norm: Norm)
    requires other !in {"refunds", "closed"}
    ensures |ReturnTab(items, other, norm)| + |ReturnTab(items, "refunds", norm)| + |ReturnTab(items, "closed", norm)|
              == |items|
       <==> forall r :: r in items ==> !Both(norm)(r)
  {
    ReturnTabsOverlap(items, other, norm);
    var at := SelectPicks(items, Both(norm));
    if at != [] {
      assert Both(norm)(items[at[0]]) && items[at[0]] in items;
    } else {
      forall r | r in items ensures !Both(norm)(r) {
        var i :| 0 <= i < |items| && items[i] == r;
      }
    }
  }

  /** Such a return: the claim that every return is under one tab only is false. */
  lemma {:induction false} UnderTwoTabs(norm: Norm)
    requires norm("refund closed") == "refund closed"
    ensures var r := Return("1", "refund closed", "", "");
            ReturnTab([r], "refunds", norm) == ReturnTab([r], "closed", norm) == [r]
  {
    var r := Return("1", "refund closed", "", "");
    var s := "refund closed";
    assert "refund" <= s;
    assert s[1..][1..][1..][1..][1..][1..][1..] == "closed";
    SuffixContains(s, 7, "closed");
    TabNames("", s);
    SelectBag([r], ReturnTest("refunds", norm));
    SelectBag([r], ReturnTest("closed", norm));
    assert [r][..0] == [];
  }
}
