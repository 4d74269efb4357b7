/**
 * The endpoint resolver of src/lib/api.ts: the choice of the service's base
 * address by host name, and `buildUrl`, which joins a path to that base and
 * applies query parameters with `URLSearchParams.set` semantics (WHATWG URL
 * Standard, section 6.2, method `set()`).
 *
 * A URL is kept abstract: a base address, a path and the ordered list of
 * name/value pairs of its query. Percent-encoding and serialisation to text
 * are not part of this model.
 */
module Api {
  import opened Wrappers

  /** Base address used when the page is served from a development host. */
  const LocalBase: string := "http://127.0.0.1:8000"
  /** Base address of the deployed analysis service. */
  const ProductionBase: string := "https://sentimenkopi-com-698955062612.asia-southeast2.run.app"

  /**
   * The page's host name, or None when there is no browser window
   * (`typeof window === 'undefined'`).
   */
  predicate IsDevelopmentHost(host: Option<string>) {
    host == Some("localhost") || host == Some("127.0.0.1")
  }

  /** `API_BASE`: the local base exactly for the two development host names. */
  function ApiBase(host: Option<string>): (base: string)
    ensures base == LocalBase <==> IsDevelopmentHost(host)
    ensures base == ProductionBase <==> !IsDevelopmentHost(host)
  {
    assert |LocalBase| != |ProductionBase|;
    if IsDevelopmentHost(host) then LocalBase else ProductionBase
  }

  /** One query parameter: its name and its value. */
  type Pair = (string, string)

  /** The relative reference handed to `buildUrl` as `path`: its path and the query it already carries. */
  datatype Target = Target(path: string, query: seq<Pair>)

  /** A resolved URL. */
  datatype Url = Url(base: string, path: string, query: seq<Pair>)

  /** The names that occur in a query. */
  function Names(q: seq<Pair>): set<string> {
    if q == [] then {} else {q[0].0} + Names(q[1..])
  }

  /** The values carried by name `name`, in query order. */
  function ValuesOf(q: seq<Pair>, name: string): seq<string> {
    if q == [] then []
    else (if q[0].0 == name then [q[0].1] else []) + ValuesOf(q[1..], name)
  }

  /** The pairs whose name is not in `names`, in query order. */
  function Outside(q: seq<Pair>, names: set<string>): seq<Pair> {
    if q == [] then []
    else (if q[0].0 in names then [] else [q[0]]) + Outside(q[1..], names)
  }

  lemma {:induction false} NamesOutside(q: seq<Pair>, names: set<string>)
    ensures Names(Outside(q, names)) == Names(q) - names
  {
    if q != [] {
      NamesOutside(q[1..], names);
      var head := if q[0].0 in names then [] else [q[0]];
      assert Outside(q, names) == head + Outside(q[1..], names);
      NamesAppend(head, Outside(q[1..], names));
    }
  }

  lemma {:induction false} ValuesOfOutside(q: seq<Pair>, names: set<string>, name: string)
    ensures ValuesOf(Outside(q, names), name) == if name in names then [] else ValuesOf(q, name)
  {
    if q != [] {
      ValuesOfOutside(q[1..], names, name);
      var head := if q[0].0 in names then [] else [q[0]];
      assert Outside(q, names) == head + Outside(q[1..], names);
      ValuesOfAppend(head, Outside(q[1..], names), name);
    }
  }

  lemma {:induction false} OutsideNested(q: seq<Pair>, inner: set<string>, outer: set<string>)
    requires inner <= outer
    ensures Outside(Outside(q, inner), outer) == Outside(q, outer)
  {
    if q != [] {
      OutsideNested(q[1..], inner, outer);
      var head := if q[0].0 in inner then [] else [q[0]];
      assert Outside(q, inner) == head + Outside(q[1..], inner);
      OutsideAppend(head, Outside(q[1..], inner), outer);
    }
  }

  lemma {:induction false} ValuesOfAppend(a: seq<Pair>, b: seq<Pair>, name: string)
    ensures ValuesOf(a + b, name) == ValuesOf(a, name) + ValuesOf(b, name)
  {
    if a != [] {
      assert (a + b)[1..] == a[1..] + b;
      ValuesOfAppend(a[1..], b, name);
    } else {
      assert a + b == b;
    }
  }

  lemma {:induction false} OutsideAppend(a: seq<Pair>, b: seq<Pair>, names: set<string>)
    ensures Outside(a + b, names) == Outside(a, names) + Outside(b, names)
  {
    if a != [] {
      assert (a + b)[1..] == a[1..] + b;
      OutsideAppend(a[1..], b, names);
    } else {
      assert a + b == b;
    }
  }

  lemma {:induction false} NamesAppend(a: seq<Pair>, b: seq<Pair>)
    ensures Names(a + b) == Names(a) + Names(b)
  {
    if a != [] {
      assert (a + b)[1..] == a[1..] + b;
      NamesAppend(a[1..], b);
    } else {
      assert a + b == b;
    }
  }

  /**
   * `URLSearchParams.set(name, value)`: the first pair named `name` takes the
   * new value and every later pair of that name is removed; when there is
   * none, the pair is appended. Afterwards `name` carries exactly `value`, and
   * the pairs of every other name are the same, in the same order.
   */
  function SetParam(q: seq<Pair>, name: string, value: string): (r: seq<Pair>)
    ensures ValuesOf(r, name) == [value]
    ensures Outside(r, {name}) == Outside(q, {name})
    ensures Names(r) == Names(q) + {name}
  {
    if q == [] then [(name, value)]
    else if q[0].0 == name then
      ValuesOfOutside(q[1..], {name}, name);
      OutsideNested(q[1..], {name}, {name});
      NamesOutside(q[1..], {name});
      [(name, value)] + Outside(q[1..], {name})
    else
      [q[0]] + SetParam(q[1..], name, value)
  }

  /** The standard's wording, when `name` is absent: the pair is appended. */
  lemma {:induction false} SetParamAppends(q: seq<Pair>, name: string, value: string)
    requires name !in Names(q)
    ensures SetParam(q, name, value) == q + [(name, value)]
  {
    if q != [] {
      SetParamAppends(q[1..], name, value);
      assert q == [q[0]] + q[1..];
    }
  }

  /**
   * The standard's wording, when `name` first occurs at index `i`: that pair
   * takes the value and the later pairs of that name are removed.
   */
  lemma {:induction false} SetParamReplacesFirst(q: seq<Pair>, name: string, value: string, i: nat)
    requires i < |q| && q[i].0 == name && name !in Names(q[..i])
    ensures SetParam(q, name, value) == q[..i] + [(name, value)] + Outside(q[i + 1..], {name})
  {
    if i > 0 {
      assert q[..i] == [q[0]] + q[1..][..i - 1];
      assert q[1..][i - 1 + 1..] == q[i + 1..];
      SetParamReplacesFirst(q[1..], name, value, i - 1);
    }
  }

  /** The `for` loop of `buildUrl`: `set` applied to each entry of `params`, in order. */
  function ApplyParams(q: seq<Pair>, params: seq<Pair>): seq<Pair>
    decreases params
  {
    if params == [] then q
    else ApplyParams(SetParam(q, params[0].0, params[0].1), params[1..])
  }

  /** The value of the last entry named `name` in `params`. */
  function LastValue(params: seq<Pair>, name: string): string
    requires name in Names(params)
  {
    if name in Names(params[1..]) then LastValue(params[1..], name) else params[0].1
  }

  /** Names outside `params` keep their pairs, and the relative order of those pairs. */
  lemma {:induction false} ApplyParamsKeepsOthers(q: seq<Pair>, params: seq<Pair>, names: set<string>)
    requires Names(params) <= names
    ensures Outside(ApplyParams(q, params), names) == Outside(q, names)
    decreases params
  {
    if params != [] {
      var (n, v) := params[0];
      ApplyParamsKeepsOthers(SetParam(q, n, v), params[1..], names);
      OutsideNested(SetParam(q, n, v), {n}, names);
      OutsideNested(q, {n}, names);
    }
  }

  /** Every name in `params` occurs exactly once afterwards, with the last value `params` gives it. */
  lemma {:induction false} ApplyParamsSetsEach(q: seq<Pair>, params: seq<Pair>, name: string)
    requires name in Names(params)
    ensures ValuesOf(ApplyParams(q, params), name) == [LastValue(params, name)]
    decreases params
  {
    var (n, v) := params[0];
    var q' := SetParam(q, n, v);
    if name in Names(params[1..]) {
      ApplyParamsSetsEach(q', params[1..], name);
    } else {
      ApplyParamsKeepsOthers(q', params[1..], Names(params[1..]));
      ValuesOfOutside(ApplyParams(q', params[1..]), Names(params[1..]), name);
      ValuesOfOutside(q', Names(params[1..]), name);
    }
  }

  /** No other names appear: the query's names are the old ones plus those of `params`. */
  lemma {:induction false} ApplyParamsNames(q: seq<Pair>, params: seq<Pair>)
    ensures Names(ApplyParams(q, params)) == Names(q) + Names(params)
    decreases params
  {
    if params != [] {
      ApplyParamsNames(SetParam(q, params[0].0, params[0].1), params[1..]);
    }
  }

  /**
   * `buildUrl(path, params)`: the path joined to `API_BASE`, then each entry
   * of `params` set on the query in turn. Without `params` the target's
   * query is kept as it is.
   */
  method BuildUrl(host: Option<string>, target: Target, params: Option<seq<Pair>>) returns (url: Url)
    ensures url.base == ApiBase(host) && url.path == target.path
    ensures params.None? ==> url.query == target.query
    ensures params.Some? ==> url.query == ApplyParams(target.query, params.value)
    ensures params.Some? ==> forall name | name in Names(params.value) ::
      ValuesOf(url.query, name) == [LastValue(params.value, name)]
    ensures params.Some? ==> Outside(url.query, Names(params.value)) == Outside(target.query, Names(params.value))
    ensures params.Some? ==> Names(url.query) == Names(target.query) + Names(params.value)
  {
    var query := target.query;
    if params.Some? {
      var entries := params.value;
      for i := 0 to |entries|
        invariant ApplyParams(query, entries[i..]) == ApplyParams(target.query, entries)
      {
        assert entries[i..][1..] == entries[i + 1..];
        query := SetParam(query, entries[i].0, entries[i].1);
      }
      forall name | name in Names(entries)
        ensures ValuesOf(query, name) == [LastValue(entries, name)]
      {
        ApplyParamsSetsEach(target.query, entries, name);
      }
      ApplyParamsKeepsOthers(target.query, entries, Names(entries));
      ApplyParamsNames(target.query, entries);
    }
    url := Url(ApiBase(host), target.path, query);
  }
}
