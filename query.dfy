/**
 * Query strings of the REST wrappers: the optional parameters that are not
 * `None` are kept in declared order, rendered `key=value`, joined with `&`,
 * and appended after a `?` only when at least one is left.
 */
module Query {
  import opened Wrappers
  import opened Text

  /** A value of an optional parameter: a string (`market`, `fields`) or an integer (`limit`, `offset`). */
  datatype Arg = Str(s: string) | Int(n: int)

  /** How an f-string renders the value. */
  function Render(a: Arg): (r: string)
    ensures a.Str? ==> r == a.s
    ensures a.Int? ==> ParseInt(r) == Some(a.n)
  {
    match a
    case Str(s) => s
    case Int(n) => IntToDecimalRoundTrip(n); IntToDecimal(n)
  }

  /** The parameters that are not `None`, in declared order, each with its rendered value. */
  function Selected(params: seq<(string, Option<Arg>)>): (r: seq<(string, string)>)
    ensures r == [] <==> forall i :: 0 <= i < |params| ==> params[i].1.None?
    decreases |params|
  {
    if params == [] then []
    else
      var head := match params[0].1
        case None => []
        case Some(v) => [(params[0].0, Render(v))];
      head + Selected(params[1..])
  }

  /** The list of one parameter: kept if it has a value, dropped if it is `None`. */
  function OneParam(key: string, value: Option<Arg>): seq<(string, string)> {
    match value
    case None => []
    case Some(v) => [(key, Render(v))]
  }

  /** Selection works parameter by parameter: it keeps the order and drops exactly the `None`s. */
  lemma {:induction false} SelectedConcat(a: seq<(string, Option<Arg>)>, b: seq<(string, Option<Arg>)>)
    ensures Selected(a + b) == Selected(a) + Selected(b)
    decreases |a|
  {
    if a == [] {
      assert a + b == b;
    } else {
      assert (a + b)[1..] == a[1..] + b;
      SelectedConcat(a[1..], b);
    }
  }

  lemma SelectedOne(key: string, value: Option<Arg>)
    ensures Selected([(key, value)]) == OneParam(key, value)
  {
  }

  /** Each selected pair written `key=value`. */
  function Assignments(pairs: seq<(string, string)>): (r: seq<string>)
    ensures |r| == |pairs|
  {
    seq(|pairs|, i requires 0 <= i < |pairs| => pairs[i].0 + "=" + pairs[i].1)
  }

  /** The endpoint with the query string of the non-`None` parameters, if any. */
  function WithQuery(endpoint: string, params: seq<(string, Option<Arg>)>): (url: string)
    ensures |url| >= |endpoint| && url[..|endpoint|] == endpoint
    ensures url == endpoint <==> Selected(params) == []
  {
    var pairs := Selected(params);
    if |pairs| > 0 then endpoint + "?" + Join(Assignments(pairs), "&") else endpoint
  }

  /** Reads a query string back into its `key=value` pairs: the reference inverse of the encoding. */
  function DecodeQuery(q: string): seq<(string, string)> {
    var parts := Split(q, '&');
    seq(|parts|, i requires 0 <= i < |parts| => SplitFirst(parts[i], '='))
  }

  /** A rendered integer never holds the pair separator. */
  lemma NoAmpersandInDecimal(n: int)
    ensures '&' !in IntToDecimal(n)
  {
    var s := IntToDecimal(n);
    if n < 0 {
      var d := NatToDecimal(-n);
      assert s == "-" + d;
      assert forall i :: 1 <= i < |s| ==> s[i] == d[i - 1];
    }
  }

  /** Pairs whose text reads back unambiguously: no `&` anywhere and no `=` inside a key. */
  predicate Unambiguous(pairs: seq<(string, string)>) {
    forall i :: 0 <= i < |pairs| ==> '&' !in pairs[i].0 && '=' !in pairs[i].0 && '&' !in pairs[i].1
  }

  lemma UnambiguousConcat(a: seq<(string, string)>, b: seq<(string, string)>)
    requires Unambiguous(a) && Unambiguous(b)
    ensures Unambiguous(a + b)
  {
    forall i | 0 <= i < |a + b|
      ensures '&' !in (a + b)[i].0 && '=' !in (a + b)[i].0 && '&' !in (a + b)[i].1
    {
      if i >= |a| {
        assert (a + b)[i] == b[i - |a|];
      }
    }
  }

  /** One kept parameter reads back unambiguously when its key and a string value are plain. */
  lemma OneParamUnambiguous(key: string, value: Option<Arg>)
    requires '&' !in key && '=' !in key
    requires value.Some? && value.value.Str? ==> '&' !in value.value.s
    ensures Unambiguous(OneParam(key, value))
  {
    if value.Some? && value.value.Int? {
      NoAmpersandInDecimal(value.value.n);
    }
  }

  /** Decoding the joined `key=value` pairs gives the pairs back. */
  lemma QueryRoundTrip(pairs: seq<(string, string)>)
    requires |pairs| >= 1 && Unambiguous(pairs)
    ensures DecodeQuery(Join(Assignments(pairs), "&")) == pairs
  {
    var parts := Assignments(pairs);
    forall i | 0 <= i < |parts|
      ensures '&' !in parts[i]
    {
      assert parts[i] == pairs[i].0 + "=" + pairs[i].1;
    }
    SplitJoin(parts, '&');
    var decoded := DecodeQuery(Join(parts, "&"));
    forall i | 0 <= i < |pairs|
      ensures decoded[i] == pairs[i]
    {
      SplitFirstAfter(pairs[i].0, pairs[i].1, '=');
    }
  }

  /**
   * What the request URL holds: the bare endpoint when every parameter is `None`;
   * otherwise the endpoint, a `?`, and a query string that reads back as exactly
   * the non-`None` parameters in declared order.
   */
  lemma WithQueryMeaning(endpoint: string, params: seq<(string, Option<Arg>)>)
    requires Unambiguous(Selected(params))
    ensures var url := WithQuery(endpoint, params);
      && (Selected(params) == [] ==> url == endpoint)
      && (Selected(params) != [] ==>
            |url| > |endpoint| && url[..|endpoint|] == endpoint && url[|endpoint|] == '?'
            && DecodeQuery(url[|endpoint| + 1..]) == Selected(params))
  {
    var pairs := Selected(params);
    if pairs != [] {
      var url := WithQuery(endpoint, params);
      var q := Join(Assignments(pairs), "&");
      assert url == endpoint + "?" + q;
      assert url[|endpoint| + 1..] == q;
      QueryRoundTrip(pairs);
    }
  }
}
