/** internal/web/request.go: the request wrapper handlers receive, with its
    path parameters (a map made on first use) and its query parameters (built
    once from the URL and cached). A Go map that was never made is `None`. */
module WebRequest {
  import opened Wrappers

  const QueryValueSeparator: string := " | "

  /** `strings.Join(values, sep)` */
  function Join(values: seq<string>, sep: string): (r: string)
    ensures |values| == 0 ==> r == ""
    ensures |values| == 1 ==> r == values[0]
  {
    if |values| == 0 then ""
    else if |values| == 1 then values[0]
    else Join(values[..|values| - 1], sep) + sep + values[|values| - 1]
  }

  function TotalLength(values: seq<string>): nat {
    if values == [] then 0 else TotalLength(values[..|values| - 1]) + |values[|values| - 1]|
  }

  /** Joining two non-empty runs of values is joining each and putting one
      separator between them: every value appears, in order, with a separator
      between each two neighbours and none at either end. */
  lemma {:induction false} JoinAppend(a: seq<string>, b: seq<string>, sep: string)
    requires |a| > 0 && |b| > 0
    ensures Join(a + b, sep) == Join(a, sep) + sep + Join(b, sep)
    decreases |b|
  {
    var ab := a + b;
    if |b| == 1 {
      assert ab[..|ab| - 1] == a;
    } else {
      var init := b[..|b| - 1];
      assert ab[..|ab| - 1] == a + init;
      JoinAppend(a, init, sep);
    }
  }

  /** The joined text is as long as the values together plus one separator
      between each two neighbours. */
  lemma {:induction false} JoinLength(values: seq<string>, sep: string)
    requires |values| > 0
    ensures |Join(values, sep)| == TotalLength(values) + (|values| - 1) * |sep|
  {
    if |values| == 1 {
      assert values[..0] == [];
    } else {
      JoinLength(values[..|values| - 1], sep);
    }
  }

  /** A joined value starts with the first value. */
  lemma {:induction false} JoinStartsWithFirst(values: seq<string>, sep: string)
    requires |values| > 0
    ensures |values[0]| <= |Join(values, sep)| && Join(values, sep)[..|values[0]|] == values[0]
  {
    if |values| > 1 {
      var init := values[..|values| - 1];
      JoinStartsWithFirst(init, sep);
      assert init[0] == values[0];
      var j := Join(init, sep);
      assert Join(values, sep) == j + sep + values[|values| - 1];
      assert (j + sep + values[|values| - 1])[..|values[0]|] == j[..|values[0]|];
    }
  }

  /** The query map `QueryParams` builds: each key of the URL's query with its
      values joined by " | ". */
  function JoinedQuery(query: map<string, seq<string>>): map<string, string> {
    map k | k in query :: Join(query[k], QueryValueSeparator)
  }

  /** `m[key]` with Go's zero value for a missing key or a map never made. */
  function Lookup(m: Option<map<string, string>>, key: string): string {
    if m.Some? && key in m.value then m.value[key] else ""
  }

  class Request {
    /** The URL's query, `r.URL.Query()`: every key with its values in order. */
    const query: map<string, seq<string>>
    var pathParams: Option<map<string, string>>
    var params: Option<map<string, string>>

    /** `NewRequest`: no path parameters and no query map yet. */
    constructor (query: map<string, seq<string>>)
      ensures this.query == query && pathParams.None? && params.None?
    {
      this.query := query;
      pathParams := None;
      params := None;
    }

    /** Makes the map on first use, then sets the key; nothing else changes. */
    method SetPathParam(key: string, value: string)
      modifies this
      ensures pathParams.Some?
      ensures pathParams.value == (if old(pathParams).Some? then old(pathParams).value else map[])[key := value]
      ensures params == old(params)
    {
      if pathParams.None? {
        pathParams := Some(map[]);
      }
      pathParams := Some(pathParams.value[key := value]);
    }

    /** The value set for the key, or "" when none was, the map not being made
        yet included. */
    function GetPathParam(key: string): (v: string)
      reads this
      ensures pathParams.Some? && key in pathParams.value ==> v == pathParams.value[key]
      ensures pathParams.None? || key !in pathParams.value ==> v == ""
    {
      Lookup(pathParams, key)
    }

    /** The cached map if there is one; otherwise the map built from the query,
        which is then kept. */
    method QueryParams() returns (m: map<string, string>)
      modifies this
      ensures old(params).Some? ==> m == old(params).value
      ensures old(params).None? ==> m == JoinedQuery(query)
      ensures params == Some(m) && pathParams == old(pathParams)
    {
      if params.Some? {
        return params.value;
      }
      m := map[];
      var todo := query.Keys;
      while todo != {}
        invariant todo <= query.Keys
        invariant m.Keys == query.Keys - todo
        invariant forall k | k in m :: m[k] == Join(query[k], QueryValueSeparator)
        decreases |todo|
      {
        var key :| key in todo;
        m := m[key := Join(query[key], QueryValueSeparator)];
        todo := todo - {key};
      }
      params := Some(m);
    }
  }

  /** After setting a key it reads back as the value set; every other key reads
      as before. */
  lemma SetThenGet(before: Option<map<string, string>>, key: string, value: string, other: string)
    ensures var after := Some((if before.Some? then before.value else map[])[key := value]);
            Lookup(after, key) == value
            && (other != key ==> Lookup(after, other) == Lookup(before, other))
  {
  }
}
