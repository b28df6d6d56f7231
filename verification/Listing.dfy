/** The pagination links of web/pages/helpers.go and the two places that read them back. */
module Listing {
  import opened FormEncoding

  // ----- numbers as text -----

  const PAGE: Bytes := "page"
  const PATH: Bytes := "/products"

  /** strconv.Itoa for a number that is not negative. */
  function Itoa(n: nat): Bytes {
    var last: Byte := ('0' as int + n % 10) as char;
    if n < 10 then [last] else Itoa(n / 10) + [last]
  }

  predicate IsDigit(c: Byte) { '0' <= c <= '9' }

  function Digits(s: Bytes): nat
    requires forall c :: c in s ==> IsDigit(c)
  {
    if s == [] then 0
    else assert IsDigit(s[|s| - 1]); 10 * Digits(s[..|s| - 1]) + (s[|s| - 1] as int - '0' as int)
  }

  const MAX_INT: int := 0x7fff_ffff_ffff_ffff

  /** The value strconv.Atoi returns beside its error: 0 for text that is not a number,
      the nearest int for one that is out of range. */
  function Atoi(s: Bytes): int {
    var signed := s != [] && (s[0] == '-' || s[0] == '+');
    var digits := if signed then s[1..] else s;
    if digits == [] || exists c :: c in digits && !IsDigit(c) then 0
    else
      var value: int := Digits(digits);
      if s[0] == '-' then (if value > MAX_INT then -MAX_INT - 1 else -value)
      else if value > MAX_INT then MAX_INT else value
  }

  lemma {:induction false} DigitsOfItoa(n: nat)
    ensures Itoa(n) != [] && forall c :: c in Itoa(n) ==> IsDigit(c)
    ensures Digits(Itoa(n)) == n
  {
    var s := Itoa(n);
    if n >= 10 {
      DigitsOfItoa(n / 10);
      assert s[..|s| - 1] == Itoa(n / 10);
    } else {
      assert s[..|s| - 1] == [];
    }
  }

  lemma AtoiItoa(n: nat)
    requires n <= MAX_INT
    ensures Atoi(Itoa(n)) == n
  {
    DigitsOfItoa(n);
    assert IsDigit(Itoa(n)[0]);
  }

  lemma ItoaInjective(m: nat, n: nat)
    ensures Itoa(m) == Itoa(n) <==> m == n
  {
    DigitsOfItoa(m);
    DigitsOfItoa(n);
  }

  // ----- listingURL -----

  /** What a link carries: the filters other than `page`, and the page when it is not the
      first. */
  function Linked(filters: Values, page: int): Values {
    var kept := map k | k in filters && k != PAGE && filters[k] != [] :: filters[k];
    if page > 1 then kept[PAGE := [Itoa(page)]] else kept
  }

  function LinkText(values: Values): Bytes {
    var query := Encode(values);
    if query == [] then PATH else PATH + ['?'] + query
  }

  /** The part of them that comes from the keys visited so far. */
  function Visited(filters: Values, left: set<Bytes>): Values {
    map k | k in filters && k !in left && k != PAGE && filters[k] != [] :: filters[k]
  }

  lemma VisitedNext(filters: Values, left: set<Bytes>, key: Bytes)
    requires key in left && key in filters
    ensures key !in Visited(filters, left)
    ensures Visited(filters, left - {key})
         == if key == PAGE || filters[key] == [] then Visited(filters, left) else Visited(filters, left)[key := filters[key]]
  {
  }

  lemma VisitedAll(filters: Values, page: int)
    ensures Linked(filters, page) == if page > 1 then Visited(filters, {})[PAGE := [Itoa(page)]] else Visited(filters, {})
    ensures Visited(filters, filters.Keys) == map[]
  {
  }

  /** listingURL, lines 479-497.  Go visits the keys of a map in an order of its own
      choosing, here the choice of `key`; the result does not depend on it. */
  method ListingURL(filters: Values, page: int) returns (url: Bytes)
    ensures url == LinkText(Linked(filters, page))
    ensures var query := Encode(Linked(filters, page));
            url == if query == "" then "/products" else "/products?" + query
  {
    var values: Values := map[];
    var left := filters.Keys;
    VisitedAll(filters, page);
    while left != {}
      invariant left <= filters.Keys && values == Visited(filters, left)
      decreases left
    {
      var key :| key in left;
      VisitedNext(filters, left, key);
      left := left - {key};
      if key == PAGE {
        continue;
      }
      values := AddAll(values, key, filters[key]);
    }
    if page > 1 {
      values := values[PAGE := [Itoa(page)]];
    }
    var query := Encode(values);
    url := if query == [] then PATH else PATH + ['?'] + query;
  }

  /** The inner loop, lines 485-487. */
  method AddAll(values: Values, key: Bytes, entries: seq<Bytes>) returns (r: Values)
    requires key !in values
    ensures r == if entries == [] then values else values[key := entries]
  {
    r := values;
    for i := 0 to |entries|
      invariant r == if i == 0 then values else values[key := entries[..i]]
    {
      assert entries[..i] + [entries[i]] == entries[..i + 1];
      r := Add(r, key, entries[i]);
    }
    assert entries[..|entries|] == entries;
  }

  // ----- reading a link back -----

  /** The query string of a link: what follows the first `?`, up to a `#`. */
  function RawQuery(url: Bytes): Bytes {
    Cut(Cut(url, '#').before, '?').after
  }

  /** The filters of the page a link leads to: r.URL.Query(). */
  function Query(url: Bytes): Values {
    ParseQuery(RawQuery(url))
  }

  /** The page number the preview handler computes. */
  function PageNumber(values: Values, pages: int): int {
    var number := if PAGE in values && values[PAGE] != [] then Atoi(values[PAGE][0]) else 0;
    var atLeastOne := if number < 1 then 1 else number;
    if atLeastOne > pages then pages else atLeastOne
  }

  /** Nothing in an encoded query is mistaken for another part of the URL. */
  lemma RawQueryOfText(query: Bytes)
    requires forall c :: c in query ==> QueryByte(c)
    ensures RawQuery(PATH + ['?'] + query) == query && RawQuery(PATH) == []
  {
    var url := PATH + ['?'] + query;
    assert '?' !in PATH && '#' !in PATH;
    assert '#' !in url;
    assert Cut(url, '#').before == url && Cut(PATH, '#').before == PATH;
    CutAt(PATH, '?', query);
  }

  lemma RawQueryOfLink(values: Values)
    ensures RawQuery(LinkText(values)) == Encode(values)
  {
    JoinAlphabet(Flatten(SortedKeys(values.Keys), values));
    RawQueryOfText(Encode(values));
  }

  lemma LinkParsesBack(filters: Values, page: int)
    ensures Query(LinkText(Linked(filters, page))) == Linked(filters, page)
  {
    QueryOfLink(Linked(filters, page));
    NoEmptyLinked(filters, page);
  }

  lemma QueryOfLink(values: Values)
    ensures Query(LinkText(values)) == WithoutEmpty(values)
  {
    RawQueryOfLink(values);
    ParseEncode(values);
  }

  lemma NoEmptyLinked(filters: Values, page: int)
    ensures WithoutEmpty(Linked(filters, page)) == Linked(filters, page)
  {
  }

  /** Round trip: a link leads to the filters it was made from, without `page` and without
      empty lists, each key with its values in order, plus the page exactly when it is
      above one. */
  lemma LinkRoundTrip(filters: Values, page: int)
    ensures var q := Query(LinkText(Linked(filters, page)));
            && (forall k :: k in q <==> if k == "page" then page > 1 else k in filters && filters[k] != [])
            && (forall k :: k in q && k != "page" ==> q[k] == filters[k])
            && (page > 1 ==> q["page"] == [Itoa(page)])
  {
    LinkParsesBack(filters, page);
    LinkedContents(filters, page, Query(LinkText(Linked(filters, page))));
  }

  lemma LinkedContents(filters: Values, page: int, q: Values)
    requires q == Linked(filters, page)
    ensures forall k :: k in q <==> if k == PAGE then page > 1 else k in filters && filters[k] != []
    ensures forall k :: k in q && k != PAGE ==> q[k] == filters[k]
    ensures page > 1 ==> q[PAGE] == [Itoa(page)]
  {
  }

  /** Following a link and making the link to page `j` there gives the same link as making
      it here. */
  lemma NavigationIndependent(filters: Values, i: int, j: int)
    ensures LinkText(Linked(Query(LinkText(Linked(filters, i))), j)) == LinkText(Linked(filters, j))
  {
    LinkParsesBack(filters, i);
    LinkedTwice(filters, i, j);
  }

  lemma LinkedTwice(filters: Values, i: int, j: int)
    ensures Linked(Linked(filters, i), j) == Linked(filters, j)
  {
  }

  function FirstPage(page: int): int { if page > 1 then page else 1 }

  /** The links are canonical: two of them are the same text exactly when the filters
      agree, apart from `page` and empty lists, and the pages agree, counting everything
      below one as one. */
  lemma {:induction false} LinksAreCanonical(f: Values, i: int, g: Values, j: int)
    ensures LinkText(Linked(f, i)) == LinkText(Linked(g, j))
       <==> Linked(f, 1) == Linked(g, 1) && FirstPage(i) == FirstPage(j)
  {
    LinkParsesBack(f, i);
    LinkParsesBack(g, j);
    if LinkText(Linked(f, i)) == LinkText(Linked(g, j)) {
      SameLinked(f, i, g, j);
    }
  }

  lemma SameLinked(f: Values, i: int, g: Values, j: int)
    requires Linked(f, i) == Linked(g, j)
    ensures Linked(f, 1) == Linked(g, 1) && FirstPage(i) == FirstPage(j)
  {
    assert Linked(f, 1) == Linked(f, i) - {PAGE};
    assert Linked(g, 1) == Linked(g, j) - {PAGE};
    assert i > 1 <==> PAGE in Linked(f, i);
    assert j > 1 <==> PAGE in Linked(g, j);
    if i > 1 {
      assert Linked(f, i)[PAGE] == [Itoa(i)] && Linked(g, j)[PAGE] == [Itoa(j)];
      ItoaInjective(i, j);
    }
  }

  /** A pagination link lands on the page it names, or on the nearest page there is. */
  lemma LinkLands(filters: Values, page: int, pages: int)
    requires 1 <= pages && page <= MAX_INT
    ensures PageNumber(Query(LinkText(Linked(filters, page))), pages)
         == if page < 1 then 1 else if page > pages then pages else page
  {
    LinkParsesBack(filters, page);
    if page > 1 {
      AtoiItoa(page);
    }
  }

  /** Whatever the query says, the handler shows a page there is: the first one if no page
      is given or what is given is not a number. */
  lemma AnyPageLands(values: Values, pages: int)
    requires 1 <= pages
    ensures 1 <= PageNumber(values, pages) <= pages
    ensures "page" !in values || values["page"] == [] ==> PageNumber(values, pages) == 1
    ensures "page" in values && values["page"] != [] ==>
              forall c :: c in values["page"][0] && c != '+' && c != '-' && !('0' <= c <= '9') ==> PageNumber(values, pages) == 1
  {
    if "page" in values && values["page"] != [] {
      forall c | c in values["page"][0] && c != '+' && c != '-' && !('0' <= c <= '9')
        ensures PageNumber(values, pages) == 1
      {
        NotANumber(values["page"][0], c);
      }
    }
  }

  lemma NotANumber(s: Bytes, c: Byte)
    requires c in s && c != '+' && c != '-' && !IsDigit(c)
    ensures Atoi(s) == 0
  {
    assert s == [s[0]] + s[1..];
  }
}
