/** Query strings: the encoding listingURL relies on and the parser that reads its links.

Text is bytes, written as characters below 256.  Escaping follows section 2.1 of RFC 3986
with the unreserved set of its section 2.3; a space becomes `+`, as HTML forms do. */
module FormEncoding {
  import opened Options

  type Byte = c: char | c as int < 256 witness 'a'
  type Bytes = seq<Byte>

  /** url.Values: each key has a list of values. */
  type Values = map<Bytes, seq<Bytes>>

  datatype Pair = Pair(key: Bytes, value: Bytes)

  // ----- escaping -----

  predicate Unreserved(c: Byte) {
    'a' <= c <= 'z' || 'A' <= c <= 'Z' || '0' <= c <= '9' || c == '-' || c == '_' || c == '.' || c == '~'
  }

  function HexDigit(n: nat): Byte
    requires n < 16
  {
    if n < 10 then ('0' as int + n) as char else ('A' as int + n - 10) as char
  }

  function Unhex(c: Byte): Option<nat> {
    if '0' <= c <= '9' then Some(c as int - '0' as int)
    else if 'a' <= c <= 'f' then Some(c as int - 'a' as int + 10)
    else if 'A' <= c <= 'F' then Some(c as int - 'A' as int + 10)
    else None
  }

  function EscapeByte(c: Byte): Bytes {
    if c == ' ' then ['+']
    else if Unreserved(c) then [c]
    else ['%', HexDigit(c as int / 16), HexDigit(c as int % 16)]
  }

  function Escape(s: Bytes): Bytes {
    if s == [] then [] else EscapeByte(s[0]) + Escape(s[1..])
  }

  /** None for a `%` that two hexadecimal digits do not follow. */
  function Unescape(s: Bytes): Option<Bytes>
    decreases |s|
  {
    if s == [] then Some([])
    else if s[0] != '%' then
      Prepend(if s[0] == '+' then ' ' else s[0], Unescape(s[1..]))
    else if |s| < 3 || Unhex(s[1]).None? || Unhex(s[2]).None? then None
    else Prepend((16 * Unhex(s[1]).value + Unhex(s[2]).value) as char, Unescape(s[3..]))
  }

  function Prepend(c: Byte, rest: Option<Bytes>): Option<Bytes> {
    if rest.None? then None else Some([c] + rest.value)
  }

  lemma HexRoundTrip(n: nat)
    requires n < 16
    ensures Unhex(HexDigit(n)) == Some(n)
  {
  }

  lemma {:induction false} UnescapeEscape(s: Bytes)
    ensures Unescape(Escape(s)) == Some(s)
  {
    if s == [] {
    } else {
      UnescapeEscape(s[1..]);
      var c, rest := s[0], Escape(s[1..]);
      var text := EscapeByte(c) + rest;
      if c == ' ' || Unreserved(c) {
        assert text[1..] == rest;
      } else {
        HexRoundTrip(c as int / 16);
        HexRoundTrip(c as int % 16);
        assert text[3..] == rest;
      }
      assert s == [s[0]] + s[1..];
    }
  }

  // ----- taking text apart -----

  datatype Parts = Parts(before: Bytes, after: Bytes)

  /** strings.Cut at the first `sep`; without one everything is `before`. */
  function Cut(s: Bytes, sep: Byte): (r: Parts)
    ensures sep !in r.before
    ensures |r.after| <= |s| && (s != [] ==> |r.after| < |s|)
    ensures if sep in s then s == r.before + [sep] + r.after else r == Parts(s, [])
  {
    if s == [] then Parts([], [])
    else if s[0] == sep then Parts([], s[1..])
    else var r := Cut(s[1..], sep); Parts([s[0]] + r.before, r.after)
  }

  lemma CutFirst(c: Byte, rest: Bytes, sep: Byte)
    ensures Cut([c] + rest, sep)
         == if c == sep then Parts([], rest) else Parts([c] + Cut(rest, sep).before, Cut(rest, sep).after)
  {
    assert ([c] + rest)[1..] == rest;
  }

  lemma {:induction false} CutAt(before: Bytes, sep: Byte, after: Bytes)
    requires sep !in before
    ensures Cut(before + [sep] + after, sep) == Parts(before, after)
  {
    if before == [] {
      assert before + [sep] + after == [sep] + after;
      CutFirst(sep, after, sep);
    } else {
      var c, rest := before[0], before[1..];
      assert before + [sep] + after == [c] + (rest + [sep] + after);
      CutAt(rest, sep, after);
      CutFirst(c, rest + [sep] + after, sep);
      assert [c] + rest == before;
    }
  }

  /** The pair one piece between `&` signs stands for; a malformed piece stands for none. */
  function ParsePiece(piece: Bytes): seq<Pair> {
    if piece == [] || ';' in piece then []
    else
      var r := Cut(piece, '=');
      var key, value := Unescape(r.before), Unescape(r.after);
      if key.None? || value.None? then [] else [Pair(key.value, value.value)]
  }

  function ParsePairs(query: Bytes): seq<Pair>
    decreases |query|
  {
    if query == [] then []
    else var r := Cut(query, '&'); ParsePiece(r.before) + ParsePairs(r.after)
  }

  function Add(m: Values, key: Bytes, value: Bytes): Values {
    m[key := (if key in m then m[key] else []) + [value]]
  }

  function Collect(m: Values, pairs: seq<Pair>): Values
    decreases pairs
  {
    if pairs == [] then m else Collect(Add(m, pairs[0].key, pairs[0].value), pairs[1..])
  }

  /** What URL.Query returns for this query string. */
  function ParseQuery(query: Bytes): Values {
    Collect(map[], ParsePairs(query))
  }

  // ----- putting text together -----

  function PairText(p: Pair): Bytes {
    Escape(p.key) + ['='] + Escape(p.value)
  }

  function JoinPairs(pairs: seq<Pair>): Bytes {
    if pairs == [] then []
    else if |pairs| == 1 then PairText(pairs[0])
    else PairText(pairs[0]) + ['&'] + JoinPairs(pairs[1..])
  }

  function PairsOf(key: Bytes, values: seq<Bytes>): seq<Pair> {
    if values == [] then [] else [Pair(key, values[0])] + PairsOf(key, values[1..])
  }

  /** The pairs of these keys, key by key. */
  function Flatten(keys: seq<Bytes>, m: Values): seq<Pair>
    requires forall k :: k in keys ==> k in m
  {
    if keys == [] then [] else PairsOf(keys[0], m[keys[0]]) + Flatten(keys[1..], m)
  }

  // ----- the order of keys -----

  /** Byte-wise lexicographic order. */
  predicate Less(a: Bytes, b: Bytes) {
    b != [] && (a == [] || a[0] < b[0] || (a[0] == b[0] && Less(a[1..], b[1..])))
  }

  lemma {:induction false} LessIsTotal(a: Bytes, b: Bytes)
    ensures Less(a, b) || a == b || Less(b, a)
    ensures !(Less(a, b) && Less(b, a)) && !Less(a, a)
  {
    if a == [] || b == [] {
    } else {
      LessIsTotal(a[1..], b[1..]);
      assert a == [a[0]] + a[1..] && b == [b[0]] + b[1..];
    }
    if a == [] {
    } else {
      LessIsTotal(a[1..], a[1..]);
    }
  }

  lemma {:induction false} LessIsTransitive(a: Bytes, b: Bytes, c: Bytes)
    requires Less(a, b) && Less(b, c)
    ensures Less(a, c)
  {
    if a != [] && a[0] == b[0] && b[0] == c[0] {
      LessIsTransitive(a[1..], b[1..], c[1..]);
    }
  }

  predicate IsFirst(k: Bytes, keys: set<Bytes>) {
    k in keys && forall j :: j in keys ==> j == k || Less(k, j)
  }

  lemma {:induction false} FirstExists(keys: set<Bytes>)
    requires keys != {}
    ensures exists k :: IsFirst(k, keys)
    decreases |keys|
  {
    var k :| k in keys;
    var rest := keys - {k};
    assert forall j :: j in keys ==> j == k || j in rest;
    if rest == {} {
      assert IsFirst(k, keys);
    } else {
      FirstExists(rest);
      var j :| IsFirst(j, rest);
      LessIsTotal(k, j);
      if Less(j, k) {
        assert IsFirst(j, keys);
      } else {
        forall i | i in keys ensures i == k || Less(k, i) {
          if i != k && i != j {
            LessIsTransitive(k, j, i);
          }
        }
        assert IsFirst(k, keys);
      }
    }
  }

  lemma FirstIsUnique(keys: set<Bytes>)
    ensures forall j, k :: IsFirst(j, keys) && IsFirst(k, keys) ==> j == k
  {
    forall j, k | IsFirst(j, keys) && IsFirst(k, keys) ensures j == k {
      LessIsTotal(j, k);
    }
  }

  ghost predicate Increasing(keys: seq<Bytes>) {
    forall i, j :: 0 <= i < j < |keys| ==> Less(keys[i], keys[j])
  }

  /** The keys in increasing order. */
  function SortedKeys(keys: set<Bytes>): (r: seq<Bytes>)
    ensures forall k :: k in r <==> k in keys
    ensures Increasing(r)
  {
    if keys == {} then []
    else
      FirstExists(keys);
      FirstIsUnique(keys);
      var k :| IsFirst(k, keys);
      [k] + SortedKeys(keys - {k})
  }

  /** There is only one way to sort: whichever way the keys are put in increasing order,
      the result is this list. */
  lemma SortedIsCanonical(keys: set<Bytes>, r: seq<Bytes>)
    requires Increasing(r) && forall k :: k in r <==> k in keys
    ensures r == SortedKeys(keys)
  {
    IncreasingIsUnique(r, SortedKeys(keys));
  }

  lemma {:induction false} IncreasingIsUnique(a: seq<Bytes>, b: seq<Bytes>)
    requires Increasing(a) && Increasing(b)
    requires forall k :: k in a <==> k in b
    ensures a == b
  {
    assert b != [] ==> b[0] in b;
    if a == [] {
    } else {
      assert a[0] in b && b[0] in a;
      LessIsTotal(a[0], b[0]);
      forall k ensures k in a[1..] <==> k in b[1..] {
        LessIsTotal(k, a[0]);
        InTail(a, k);
        InTail(b, k);
      }
      IncreasingIsUnique(a[1..], b[1..]);
    }
  }

  lemma InTail(a: seq<Bytes>, k: Bytes)
    requires a != [] && Increasing(a)
    ensures k in a[1..] <==> k in a && k != a[0]
  {
    LessIsTotal(a[0], a[0]);
    assert a == [a[0]] + a[1..];
  }

  /** url.Values.Encode: the keys in order, each with its values in theirs. */
  function Encode(m: Values): Bytes {
    JoinPairs(Flatten(SortedKeys(m.Keys), m))
  }

  // ----- the round trip -----

  predicate Harmless(c: Byte) { Unreserved(c) || c == '%' || c == '+' }

  lemma {:induction false} EscapeIsHarmless(s: Bytes)
    ensures forall c :: c in Escape(s) ==> Harmless(c)
  {
    if s == [] {
    } else {
      EscapeIsHarmless(s[1..]);
      forall c | c in Escape(s) ensures Harmless(c) {
        assert c in EscapeByte(s[0]) || c in Escape(s[1..]);
      }
    }
  }

  lemma NoSeparators(s: Bytes)
    ensures '&' !in Escape(s) && '=' !in Escape(s) && ';' !in Escape(s)
  {
  }

  lemma ParsePairText(p: Pair)
    ensures ParsePiece(PairText(p)) == [p]
    ensures '&' !in PairText(p) && PairText(p) != []
  {
    var key, value := Escape(p.key), Escape(p.value);
    NoSeparators(p.key);
    NoSeparators(p.value);
    assert forall c :: c in PairText(p) <==> c in key || c == '=' || c in value;
    CutAt(key, '=', value);
    UnescapeEscape(p.key);
    UnescapeEscape(p.value);
    assert Cut(PairText(p), '=') == Parts(key, value);
  }

  /** The parser undoes JoinPairs. */
  lemma {:induction false} ParseJoin(pairs: seq<Pair>)
    ensures ParsePairs(JoinPairs(pairs)) == pairs
    ensures JoinPairs(pairs) == [] <==> pairs == []
  {
    if |pairs| == 1 {
      ParsePairText(pairs[0]);
      assert ParsePairs([]) == [];
    } else if |pairs| > 1 {
      ParsePairText(pairs[0]);
      CutAt(PairText(pairs[0]), '&', JoinPairs(pairs[1..]));
      ParseJoin(pairs[1..]);
    }
  }

  function WithoutEmpty(m: Values): Values {
    map k | k in m && m[k] != [] :: m[k]
  }

  lemma {:induction false} CollectConcat(m: Values, first: seq<Pair>, second: seq<Pair>)
    ensures Collect(m, first + second) == Collect(Collect(m, first), second)
    decreases first
  {
    if first == [] {
      assert first + second == second;
    } else {
      assert (first + second)[0] == first[0] && (first + second)[1..] == first[1..] + second;
      CollectConcat(Add(m, first[0].key, first[0].value), first[1..], second);
    }
  }

  /** Adding values one by one appends them to the key's list, in order. */
  lemma {:induction false} CollectOneKey(m: Values, key: Bytes, values: seq<Bytes>)
    ensures Collect(m, PairsOf(key, values))
         == if values == [] then m else m[key := (if key in m then m[key] else []) + values]
    decreases values
  {
    if values == [] {
    } else {
      var m' := Add(m, key, values[0]);
      CollectOneKey(m', key, values[1..]);
      var before := if key in m then m[key] else [];
      assert (before + [values[0]]) + values[1..] == before + values;
      assert PairsOf(key, values)[1..] == PairsOf(key, values[1..]);
      if values[1..] == [] {
        assert before + [values[0]] == before + values;
      }
    }
  }

  function NonEmptyOf(keys: seq<Bytes>, m: Values): Values
    requires forall k :: k in keys ==> k in m
  {
    map k | k in keys && m[k] != [] :: m[k]
  }

  lemma {:induction false} CollectFlatten(acc: Values, keys: seq<Bytes>, m: Values)
    requires forall k :: k in keys ==> k in m && k !in acc
    requires forall i, j :: 0 <= i < j < |keys| ==> keys[i] != keys[j]
    ensures Collect(acc, Flatten(keys, m)) == acc + NonEmptyOf(keys, m)
    decreases keys
  {
    if keys == [] {
    } else {
      var k := keys[0];
      CollectConcat(acc, PairsOf(k, m[k]), Flatten(keys[1..], m));
      CollectOneKey(acc, k, m[k]);
      var acc' := if m[k] == [] then acc else acc[k := m[k]];
      assert [] + m[k] == m[k];
      forall j | j in keys[1..] ensures j in m && j !in acc' {
        assert j in keys && j != k;
      }
      CollectFlatten(acc', keys[1..], m);
      FirstKeyApart(acc, keys, m);
    }
  }

  lemma FirstKeyApart(acc: Values, keys: seq<Bytes>, m: Values)
    requires keys != [] && forall k :: k in keys ==> k in m && k !in acc
    requires keys[0] !in keys[1..]
    ensures var k := keys[0];
            (if m[k] == [] then acc else acc[k := m[k]]) + NonEmptyOf(keys[1..], m) == acc + NonEmptyOf(keys, m)
  {
  }

  lemma IncreasingIsDistinct(keys: seq<Bytes>)
    requires Increasing(keys)
    ensures forall i, j :: 0 <= i < j < |keys| ==> keys[i] != keys[j]
  {
    forall i, j | 0 <= i < j < |keys| ensures keys[i] != keys[j] {
      LessIsTotal(keys[i], keys[j]);
    }
  }

  lemma CollectAll(keys: seq<Bytes>, m: Values)
    requires Increasing(keys) && forall k :: k in keys <==> k in m
    ensures Collect(map[], Flatten(keys, m)) == WithoutEmpty(m)
  {
    IncreasingIsDistinct(keys);
    CollectFlatten(map[], keys, m);
    assert map[] + NonEmptyOf(keys, m) == WithoutEmpty(m);
  }

  /** Parsing an encoded set of values gives them back, except keys without values. */
  lemma ParseEncode(m: Values)
    ensures ParseQuery(Encode(m)) == WithoutEmpty(m)
  {
    ParseJoin(Flatten(SortedKeys(m.Keys), m));
    CollectAll(SortedKeys(m.Keys), m);
  }

  /** Keys without values leave no trace in the text. */
  lemma EncodeIgnoresEmpty(m: Values)
    ensures Encode(m) == Encode(WithoutEmpty(m))
  {
    FlattenIgnoresEmpty(SortedKeys(m.Keys), m);
    var kept := NonEmpty(SortedKeys(m.Keys), m);
    NonEmptyKeys(SortedKeys(m.Keys), m);
    SortedIsCanonical(WithoutEmpty(m).Keys, kept);
  }

  function NonEmpty(keys: seq<Bytes>, m: Values): seq<Bytes>
    requires forall k :: k in keys ==> k in m
  {
    if keys == [] then []
    else (if m[keys[0]] != [] then [keys[0]] else []) + NonEmpty(keys[1..], m)
  }

  lemma {:induction false} NonEmptyKeys(keys: seq<Bytes>, m: Values)
    requires forall k :: k in keys ==> k in m
    ensures forall k :: k in NonEmpty(keys, m) <==> k in keys && m[k] != []
    ensures Increasing(keys) ==> Increasing(NonEmpty(keys, m))
  {
    if keys == [] {
    } else {
      var rest := NonEmpty(keys[1..], m);
      NonEmptyKeys(keys[1..], m);
      assert forall k :: k in keys <==> k == keys[0] || k in keys[1..];
      if Increasing(keys) {
        forall k | k in rest ensures Less(keys[0], k) {
          assert k in keys[1..];
        }
        assert forall i :: 0 <= i < |rest| ==> rest[i] in rest;
      }
    }
  }

  lemma KeptKeys(keys: seq<Bytes>, m: Values)
    requires forall k :: k in keys ==> k in m
    ensures forall k :: k in NonEmpty(keys, m) ==> k in WithoutEmpty(m)
  {
    NonEmptyKeys(keys, m);
  }

  lemma FlattenFirst(key: Bytes, keys: seq<Bytes>, m: Values)
    requires key in m && forall k :: k in keys ==> k in m
    ensures Flatten([key] + keys, m) == PairsOf(key, m[key]) + Flatten(keys, m)
  {
    assert ([key] + keys)[1..] == keys;
  }

  lemma {:induction false} FlattenIgnoresEmpty(keys: seq<Bytes>, m: Values)
    requires forall k :: k in keys ==> k in m
    ensures forall k :: k in NonEmpty(keys, m) ==> k in WithoutEmpty(m)
    ensures Flatten(NonEmpty(keys, m), WithoutEmpty(m)) == Flatten(keys, m)
  {
    KeptKeys(keys, m);
    if keys == [] {
    } else {
      var key, rest := keys[0], NonEmpty(keys[1..], m);
      FlattenIgnoresEmpty(keys[1..], m);
      assert keys == [key] + keys[1..];
      FlattenFirst(key, keys[1..], m);
      if m[key] != [] {
        assert NonEmpty(keys, m) == [key] + rest;
        FlattenFirst(key, rest, WithoutEmpty(m));
      } else {
        assert NonEmpty(keys, m) == rest;
      }
    }
  }

  /** The alphabet of an encoded query: nothing in it ends the query or starts another
      part of a URL. */
  predicate QueryByte(c: Byte) { Harmless(c) || c == '=' || c == '&' }

  lemma {:induction false} JoinAlphabet(pairs: seq<Pair>)
    ensures forall c :: c in JoinPairs(pairs) ==> QueryByte(c)
  {
    if pairs == [] {
    } else {
      EscapeIsHarmless(pairs[0].key);
      EscapeIsHarmless(pairs[0].value);
      JoinAlphabet(pairs[1..]);
      assert forall c :: c in PairText(pairs[0]) ==> QueryByte(c);
    }
  }

  /** Two sets of values have the same text exactly when they agree apart from keys
      without values. */
  lemma EncodeIsCanonical(m: Values, n: Values)
    ensures Encode(m) == Encode(n) <==> WithoutEmpty(m) == WithoutEmpty(n)
  {
    ParseEncode(m);
    ParseEncode(n);
    EncodeIgnoresEmpty(m);
    EncodeIgnoresEmpty(n);
  }
}
