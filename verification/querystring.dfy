/**
 A plain reading of the query strings the client builds by string
 formatting: split on `&`, then each piece at its first `=`. It does no
 percent-decoding, keeps `+` as it is and does not stop at `#`. This is the
 partner the request builders are checked against.
 */
module QueryString {
  import opened Text

  /** One `key=value` parameter. */
  type Param = (string, string)

  /** The text `key=value`, one parameter of a formatted query string. */
  function Arg(key: string, value: string): string {
    key + "=" + value
  }

  /** One piece of a query string: the text before the first `=`, and the rest (empty when there is no `=`). */
  function ParsePair(piece: string): Param {
    var parts := Split(piece, '=');
    if |parts| == 1 then (piece, "") else (parts[0], Join(parts[1..], '='))
  }

  /** The parameters of a query string, in order. */
  function ParseQuery(query: string): (ps: seq<Param>)
    ensures |ps| == |Split(query, '&')|
  {
    var pieces := Split(query, '&');
    seq(|pieces|, i requires 0 <= i < |pieces| => ParsePair(pieces[i]))
  }

  /** A piece `key=value` reads back as `(key, value)` when the key has no `=`. */
  lemma ParsePairOf(key: string, value: string)
    requires '=' !in key
    ensures ParsePair(key + "=" + value) == (key, value)
  {
    SplitAround(key, '=', value);
    SplitNoSeparator(key, '=');
    assert key + "=" + value == key + ['='] + value;
    var parts := Split(key + "=" + value, '=');
    assert parts == [key] + Split(value, '=');
    assert parts[1..] == Split(value, '=');
    JoinSplit(value, '=');
  }

  /** An `&` separates the parameters before it from those after it. */
  lemma ParseQueryAround(a: string, b: string)
    ensures ParseQuery(a + "&" + b) == ParseQuery(a) + ParseQuery(b)
  {
    assert a + "&" + b == a + ['&'] + b;
    SplitAround(a, '&', b);
  }

  /** A single parameter whose key has no `=` or `&` and whose value has no `&`. */
  lemma ParseQueryOne(key: string, value: string)
    requires '=' !in key && '&' !in key && '&' !in value
    ensures ParseQuery(Arg(key, value)) == [(key, value)]
  {
    assert '&' !in key + "=" + value;
    SplitNoSeparator(key + "=" + value, '&');
    ParsePairOf(key, value);
  }

  /** Appending one more `&key=value` parameter appends it to the parsed list. */
  lemma ParseQuerySnoc(prefix: string, key: string, value: string)
    requires '=' !in key && '&' !in key && '&' !in value
    ensures ParseQuery(prefix + "&" + Arg(key, value)) == ParseQuery(prefix) + [(key, value)]
  {
    ParseQueryAround(prefix, Arg(key, value));
    ParseQueryOne(key, value);
  }

  /** A parameter whose key has no `=` or `&` and whose value has no `&`. */
  predicate PlainParam(key: string, value: string) {
    '=' !in key && '&' !in key && '&' !in value
  }

  /** Five plain parameters written out one after the other read back in order. */
  lemma ParseFive(k1: string, v1: string, k2: string, v2: string, k3: string, v3: string,
                  k4: string, v4: string, k5: string, v5: string)
    requires PlainParam(k1, v1) && PlainParam(k2, v2) && PlainParam(k3, v3) && PlainParam(k4, v4) && PlainParam(k5, v5)
    ensures ParseQuery(Arg(k1, v1) + "&" + Arg(k2, v2) + "&" + Arg(k3, v3) + "&" + Arg(k4, v4) + "&" + Arg(k5, v5))
            == [(k1, v1), (k2, v2), (k3, v3), (k4, v4), (k5, v5)]
  {
    var p1 := Arg(k1, v1);
    var p2 := p1 + "&" + Arg(k2, v2);
    var p3 := p2 + "&" + Arg(k3, v3);
    var p4 := p3 + "&" + Arg(k4, v4);
    ParseQueryOne(k1, v1);
    ParseQuerySnoc(p1, k2, v2);
    ParseQuerySnoc(p2, k3, v3);
    ParseQuerySnoc(p3, k4, v4);
    ParseQuerySnoc(p4, k5, v5);
  }

  /** Six plain parameters written out one after the other read back in order. */
  lemma ParseSix(k1: string, v1: string, k2: string, v2: string, k3: string, v3: string,
                 k4: string, v4: string, k5: string, v5: string, k6: string, v6: string)
    requires PlainParam(k1, v1) && PlainParam(k2, v2) && PlainParam(k3, v3) && PlainParam(k4, v4) && PlainParam(k5, v5)
    requires PlainParam(k6, v6)
    ensures ParseQuery(Arg(k1, v1) + "&" + Arg(k2, v2) + "&" + Arg(k3, v3) + "&" + Arg(k4, v4) + "&" + Arg(k5, v5)
                       + "&" + Arg(k6, v6))
            == [(k1, v1), (k2, v2), (k3, v3), (k4, v4), (k5, v5), (k6, v6)]
  {
    ParseFive(k1, v1, k2, v2, k3, v3, k4, v4, k5, v5);
    ParseQuerySnoc(Arg(k1, v1) + "&" + Arg(k2, v2) + "&" + Arg(k3, v3) + "&" + Arg(k4, v4) + "&" + Arg(k5, v5), k6, v6);
  }

  /** Seven plain parameters written out one after the other read back in order. */
  lemma ParseSeven(k1: string, v1: string, k2: string, v2: string, k3: string, v3: string,
                   k4: string, v4: string, k5: string, v5: string, k6: string, v6: string, k7: string, v7: string)
    requires PlainParam(k1, v1) && PlainParam(k2, v2) && PlainParam(k3, v3) && PlainParam(k4, v4) && PlainParam(k5, v5)
    requires PlainParam(k6, v6) && PlainParam(k7, v7)
    ensures ParseQuery(Arg(k1, v1) + "&" + Arg(k2, v2) + "&" + Arg(k3, v3) + "&" + Arg(k4, v4) + "&" + Arg(k5, v5)
                       + "&" + Arg(k6, v6) + "&" + Arg(k7, v7))
            == [(k1, v1), (k2, v2), (k3, v3), (k4, v4), (k5, v5), (k6, v6), (k7, v7)]
  {
    ParseSix(k1, v1, k2, v2, k3, v3, k4, v4, k5, v5, k6, v6);
    ParseQuerySnoc(Arg(k1, v1) + "&" + Arg(k2, v2) + "&" + Arg(k3, v3) + "&" + Arg(k4, v4) + "&" + Arg(k5, v5)
                   + "&" + Arg(k6, v6), k7, v7);
  }
}
