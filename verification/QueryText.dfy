/** The text of an encoded query and of a link, said without the parser: section 2.1 of
    RFC 3986 for the escapes, `+` for a space, `=` and `&` between keys and values. */
module QueryText {
  import opened Options
  import opened FormEncoding
  import opened Listing

  // ----- escapes -----

  /** Text is escaped byte by byte. */
  lemma {:induction false} EscapeConcat(a: Bytes, b: Bytes)
    ensures Escape(a + b) == Escape(a) + Escape(b)
  {
    if a == [] {
      assert a + b == b;
    } else {
      assert (a + b)[0] == a[0] && (a + b)[1..] == a[1..] + b;
      EscapeConcat(a[1..], b);
    }
  }

  /** The unreserved characters of section 2.3. */
  predicate Safe(c: char) {
    'a' <= c <= 'z' || 'A' <= c <= 'Z' || '0' <= c <= '9' || c == '-' || c == '_' || c == '.' || c == '~'
  }

  /** A space is a plus, an unreserved character stays as it is, and any other byte is a
      percent sign and its two digits in base 16, in capitals. */
  lemma EscapeOne(c: Byte)
    ensures c == ' ' ==> Escape([c]) == "+"
    ensures Safe(c) ==> Escape([c]) == [c]
    ensures c != ' ' && !Safe(c) ==>
              Escape([c]) == ['%', "0123456789ABCDEF"[c as int / 16], "0123456789ABCDEF"[c as int % 16]]
  {
    assert [c][1..] == [];
    HexDigits(c as int / 16);
    HexDigits(c as int % 16);
  }

  lemma HexDigits(n: nat)
    requires n < 16
    ensures HexDigit(n) == "0123456789ABCDEF"[n]
  {
  }

  lemma EscapeSplit(s: Bytes)
    requires s != []
    ensures Escape(s) == Escape([s[0]]) + Escape(s[1..])
  {
    EscapeConcat([s[0]], s[1..]);
    assert [s[0]] + s[1..] == s;
  }

  lemma Occurrences(a: Bytes, b: Bytes, c: Byte)
    ensures multiset(a + b)[c] == multiset(a)[c] + multiset(b)[c]
  {
    assert multiset(a + b) == multiset(a) + multiset(b);
  }

  /** Every plus in the escaped text stands for a space. */
  lemma {:induction false} PlusIsSpace(s: Bytes)
    ensures multiset(Escape(s))['+'] == multiset(s)[' ']
  {
    if s == [] {
    } else {
      PlusIsSpace(s[1..]);
      EscapeSplit(s);
      PlusInOne(s[0]);
      Occurrences(Escape([s[0]]), Escape(s[1..]), '+');
      Occurrences([s[0]], s[1..], ' ');
      assert s == [s[0]] + s[1..];
    }
  }

  lemma PlusInOne(c: Byte)
    ensures multiset(Escape([c]))['+'] == if c == ' ' then 1 else 0
  {
    EscapeOne(c);
    HexIsNoSign(c as int / 16);
    HexIsNoSign(c as int % 16);
  }

  lemma HexIsNoSign(n: nat)
    requires n < 16
    ensures var d := "0123456789ABCDEF"[n]; d != '+' && d != '%' && d in "0123456789ABCDEF"
  {
  }

  /** Every percent sign in the escaped text is followed by two digits. */
  lemma {:induction false} PercentIsFollowed(s: Bytes, i: nat)
    requires i < |Escape(s)| && Escape(s)[i] == '%'
    ensures i + 2 < |Escape(s)|
    ensures Escape(s)[i + 1] in "0123456789ABCDEF" && Escape(s)[i + 2] in "0123456789ABCDEF"
  {
    EscapeSplit(s);
    EscapeOne(s[0]);
    HexIsNoSign(s[0] as int / 16);
    HexIsNoSign(s[0] as int % 16);
    var one := |Escape([s[0]])|;
    if i < one {
    } else {
      PercentIsFollowed(s[1..], i - one);
    }
  }

  /** Text of unreserved characters is left as it is. */
  lemma {:induction false} SafeIsKept(s: Bytes)
    requires forall i :: 0 <= i < |s| ==> Safe(s[i])
    ensures Escape(s) == s
  {
    if s == [] {
    } else {
      SafeIsKept(s[1..]);
      EscapeSplit(s);
      EscapeOne(s[0]);
    }
  }

  /** No text that may stand in a query and means the same is shorter. */
  lemma {:induction false} EscapeIsShortest(t: Bytes, s: Bytes)
    requires forall i :: 0 <= i < |t| ==> Safe(t[i]) || t[i] == '%' || t[i] == '+'
    requires Unescape(t) == Some(s)
    ensures |Escape(s)| <= |t|
    decreases |t|
  {
    if t == [] {
    } else {
      var width := if t[0] == '%' then 3 else 1;
      EscapeIsShortest(t[width..], s[1..]);
      EscapeSplit(s);
      EscapeOne(s[0]);
    }
  }

  // ----- queries -----

  lemma {:induction false} FlattenSame(keys: seq<Bytes>, m: Values, n: Values)
    requires forall k :: k in keys ==> k in m && k in n && m[k] == n[k]
    ensures Flatten(keys, m) == Flatten(keys, n)
  {
    if keys == [] {
    } else {
      FlattenSame(keys[1..], m, n);
    }
  }

  /** Without the first value of a key. */
  function Later(m: Values, key: Bytes): Values
    requires key in m && m[key] != []
  {
    m[key := m[key][1..]]
  }

  lemma JoinFirst(pair: Pair, pairs: seq<Pair>)
    ensures JoinPairs([pair] + pairs)
         == Escape(pair.key) + "=" + Escape(pair.value) + (if JoinPairs(pairs) == "" then "" else "&" + JoinPairs(pairs))
  {
    ParseJoin(pairs);
    assert ([pair] + pairs)[1..] == pairs;
  }

  lemma LeastIsFirst(keys: set<Bytes>, key: Bytes)
    requires IsFirst(key, keys)
    ensures SortedKeys(keys) != [] && SortedKeys(keys)[0] == key && key !in SortedKeys(keys)[1..]
  {
    FirstIsUnique(keys);
    InTail(SortedKeys(keys), key);
  }

  lemma PairsFirst(key: Bytes, values: seq<Bytes>, more: seq<Pair>)
    requires values != []
    ensures PairsOf(key, values) + more == [Pair(key, values[0])] + (PairsOf(key, values[1..]) + more)
  {
  }

  lemma FlattenFirstValue(keys: seq<Bytes>, m: Values, key: Bytes)
    requires forall k :: k in keys ==> k in m
    requires keys != [] && keys[0] == key && key !in keys[1..] && m[key] != []
    ensures Flatten(keys, m) == [Pair(key, m[key][0])] + Flatten(keys, Later(m, key))
  {
    var n, rest := Later(m, key), keys[1..];
    assert keys == [key] + rest;
    FlattenSame(rest, m, n);
    FlattenFirst(key, rest, m);
    FlattenFirst(key, rest, n);
    PairsFirst(key, m[key], Flatten(rest, m));
  }

  lemma EncodeLeast(m: Values, key: Bytes)
    requires IsFirst(key, m.Keys) && m[key] != []
    ensures Encode(m) == Escape(key) + "=" + Escape(m[key][0])
                         + (if Encode(Later(m, key)) == "" then "" else "&" + Encode(Later(m, key)))
  {
    assert Later(m, key).Keys == m.Keys;
    LeastIsFirst(m.Keys, key);
    FlattenFirstValue(SortedKeys(m.Keys), m, key);
    JoinFirst(Pair(key, m[key][0]), Flatten(SortedKeys(m.Keys), Later(m, key)));
  }

  lemma LaterEmpty(m: Values, key: Bytes)
    requires key in m && m[key] != []
    ensures key in WithoutEmpty(m) && WithoutEmpty(m)[key] == m[key]
    ensures WithoutEmpty(Later(m, key)) == WithoutEmpty(Later(WithoutEmpty(m), key))
  {
  }

  lemma LaterKept(m: Values, key: Bytes)
    requires key in m && m[key] != []
    ensures key in WithoutEmpty(m) && WithoutEmpty(m)[key] == m[key]
    ensures Encode(Later(m, key)) == Encode(Later(WithoutEmpty(m), key))
  {
    LaterEmpty(m, key);
    EncodeIsCanonical(Later(m, key), Later(WithoutEmpty(m), key));
  }

  /** The first value of the first key that has one, and after an ampersand the rest; this
      determines the text. */
  lemma EncodeFirst(m: Values, key: Bytes)
    requires key in m && m[key] != []
    requires forall k :: k in m && m[k] != [] && k != key ==> Less(key, k)
    ensures Encode(m) == Escape(key) + "=" + Escape(m[key][0])
                         + (if Encode(Later(m, key)) == "" then "" else "&" + Encode(Later(m, key)))
  {
    LaterKept(m, key);
    EncodeIgnoresEmpty(m);
    EncodeLeast(WithoutEmpty(m), key);
  }

  /** Without values there is no text. */
  lemma EncodeNothing(m: Values)
    ensures Encode(m) == "" <==> forall k :: k in m ==> m[k] == []
  {
    EncodeIsCanonical(m, map[]);
    assert Encode(map[]) == "";
    assert WithoutEmpty(map[]) == map[];
    if WithoutEmpty(m) == map[] {
      forall k | k in m ensures m[k] == [] {
        assert k !in WithoutEmpty(m);
      }
    }
  }

  /** The order of the keys is that of their first difference, a prefix coming first. */
  lemma {:induction false} LessExactly(a: Bytes, b: Bytes)
    ensures Less(a, b) <==> exists same: Bytes :: same <= a && same < b && (a == same || (same < a && a[|same|] < b[|same|]))
  {
    if Less(a, b) {
      var same := FirstDifference(a, b);
    }
    if same: Bytes :| same <= a && same < b && (a == same || (same < a && a[|same|] < b[|same|])) {
      DifferenceOrders(a, b, same);
    }
  }

  lemma {:induction false} FirstDifference(a: Bytes, b: Bytes) returns (same: Bytes)
    requires Less(a, b)
    ensures same <= a && same < b && (a == same || (same < a && a[|same|] < b[|same|]))
  {
    if a == [] || a[0] < b[0] {
      same := [];
    } else {
      same := FirstDifference(a[1..], b[1..]);
      same := [a[0]] + same;
    }
  }

  lemma {:induction false} DifferenceOrders(a: Bytes, b: Bytes, same: Bytes)
    requires same <= a && same < b && (a == same || (same < a && a[|same|] < b[|same|]))
    ensures Less(a, b)
  {
    if same == [] {
    } else {
      DifferenceOrders(a[1..], b[1..], same[1..]);
    }
  }

  // ----- numbers and links -----

  /** Page numbers are written in base 10, without leading zeros. */
  lemma ItoaIsDecimal(n: nat)
    ensures n < 10 ==> Itoa(n) == ["0123456789"[n]]
    ensures n >= 10 ==> Itoa(n) == Itoa(n / 10) + ["0123456789"[n % 10]]
  {
  }
}
