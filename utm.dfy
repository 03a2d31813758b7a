/** `preserveUTM(url)`: carry the campaign-tracking parameters of the current
    page's query string over to a link. Query strings are modelled as lists of
    key/value pairs that have already been decoded; percent-encoding is not
    modelled, and a pair serializes as `key=value`. */
module Utm {
  import opened JsCore

  datatype Param = Param(key: string, value: string)

  /** The fixed whitelist, in the order the parameters are carried. */
  const UtmKeys: seq<string> := ["utm_source", "utm_medium", "utm_campaign", "utm_term", "utm_content"]

  /** `URLSearchParams.get(key)`: the value of the first pair with that key, or null. */
  function Get(q: seq<Param>, key: string): (v: Option<string>)
    ensures v.None? <==> forall i :: 0 <= i < |q| ==> q[i].key != key
    // the value comes from the first pair with the key
    ensures v.Some? ==> exists i :: 0 <= i < |q| && q[i] == Param(key, v.value) &&
                          forall j :: 0 <= j < i ==> q[j].key != key
  {
    if q == [] then None
    else if q[0].key == key then Some(q[0].value)
    else Get(q[1..], key)
  }

  /** What one whitelisted key contributes: its pair when its value is truthy. */
  function CarriedFor(q: seq<Param>, key: string): seq<Param> {
    var v := Get(q, key);
    if Truthy(v) then [Param(key, v.value)] else []
  }

  /** The pairs carried from q for the keys of `keys`, in the order of `keys`. */
  function CarriedFrom(q: seq<Param>, keys: seq<string>): seq<Param>
    decreases |keys|
  {
    if keys == [] then []
    else CarriedFrom(q, keys[..|keys| - 1]) + CarriedFor(q, keys[|keys| - 1])
  }

  lemma CarriedFromSnoc(q: seq<Param>, keys: seq<string>, k: string)
    ensures CarriedFrom(q, keys + [k]) == CarriedFrom(q, keys) + CarriedFor(q, k)
  {
    assert (keys + [k])[..|keys|] == keys;
  }

  function Carried(q: seq<Param>): seq<Param> {
    CarriedFrom(q, UtmKeys)
  }

  /** `URLSearchParams.toString()`: `key=value` pairs joined by '&'. */
  function Serialize(ps: seq<Param>): string
    decreases |ps|
  {
    if ps == [] then ""
    else if |ps| == 1 then ps[0].key + "=" + ps[0].value
    else Serialize(ps[..|ps| - 1]) + "&" + ps[|ps| - 1].key + "=" + ps[|ps| - 1].value
  }

  /** A list of pairs serializes to the empty string exactly when it is empty,
      because every pair contributes its '='. */
  lemma {:induction false} SerializeEmpty(ps: seq<Param>)
    ensures Serialize(ps) == "" <==> ps == []
  {
    if |ps| == 1 {
      assert |Serialize(ps)| == |ps[0].key| + 1 + |ps[0].value|;
    } else if |ps| > 1 {
      var last := ps[|ps| - 1];
      assert |Serialize(ps)| == |Serialize(ps[..|ps| - 1])| + 1 + |last.key| + 1 + |last.value|;
    }
  }

  /** The separator rule: '&' when the url already has a query, else '?'. */
  function Separator(url: string): (sep: string)
    ensures sep == "&" <==> '?' in url
    ensures sep == "?" <==> '?' !in url
  {
    IncludesChar(url, '?');
    if Includes(url, "?") then "&" else "?"
  }

  /** The specification of preserveUTM: unchanged without a window or when no
      parameter is carried; otherwise the url, the separator and the carried
      parameters. `search` is None when there is no `window`. */
  function Preserved(url: string, search: Option<seq<Param>>): string {
    if search.None? || Carried(search.value) == [] then url
    else url + Separator(url) + Serialize(Carried(search.value))
  }

  /** The source's loop: for each whitelisted key in order, copy a truthy value
      into a fresh parameter list (each key is set once, so `set` appends),
      then append the list when it serializes to something. */
  method PreserveUtm(url: string, search: Option<seq<Param>>) returns (r: string)
    ensures r == Preserved(url, search)
  {
    if search.None? {
      return url;
    }
    var current := search.value;
    var utmParams: seq<Param> := [];
    var i := 0;
    while i < |UtmKeys|
      invariant 0 <= i <= |UtmKeys|
      invariant utmParams == CarriedFrom(current, UtmKeys[..i])
    {
      var key := UtmKeys[i];
      var value := Get(current, key);
      if Truthy(value) {
        utmParams := utmParams + [Param(key, value.value)];
      }
      assert UtmKeys[..i + 1][..i] == UtmKeys[..i];
      i := i + 1;
    }
    assert UtmKeys[..i] == UtmKeys;
    SerializeEmpty(utmParams);
    if Serialize(utmParams) != "" {
      var separator := if Includes(url, "?") then "&" else "?";
      return url + separator + Serialize(utmParams);
    }
    return url;
  }

  /** Only whitelisted keys are carried, each with the first value the current
      query gives it, and never with an empty value. */
  lemma {:induction false} CarriedFromSound(q: seq<Param>, keys: seq<string>)
    ensures forall p :: p in CarriedFrom(q, keys) ==>
              p.key in keys && Get(q, p.key) == Some(p.value) && p.value != ""
    decreases |keys|
  {
    if keys != [] {
      var init := keys[..|keys| - 1];
      CarriedFromSound(q, init);
      assert forall k :: k in init ==> k in keys;
    }
  }

  /** Every whitelisted key with a truthy value is carried. */
  lemma {:induction false} CarriedFromComplete(q: seq<Param>, keys: seq<string>)
    ensures forall k :: k in keys && Truthy(Get(q, k)) ==> Param(k, Get(q, k).value) in CarriedFrom(q, keys)
    decreases |keys|
  {
    if keys != [] {
      var init := keys[..|keys| - 1];
      CarriedFromComplete(q, init);
      assert keys == init + [keys[|keys| - 1]];
    }
  }

  /** The keys of c appear in `keys` in the same order: for i < j, c[i]'s key
      sits at an earlier position of `keys` than c[j]'s. */
  ghost predicate InKeyOrder(c: seq<Param>, keys: seq<string>) {
    forall i, j :: 0 <= i < j < |c| ==>
      exists a, b :: 0 <= a < b < |keys| && keys[a] == c[i].key && keys[b] == c[j].key
  }

  /** The carried pairs keep the whitelist order. */
  lemma {:induction false} CarriedFromOrdered(q: seq<Param>, keys: seq<string>)
    ensures InKeyOrder(CarriedFrom(q, keys), keys)
    decreases |keys|
  {
    if keys != [] {
      var init := keys[..|keys| - 1];
      var c := CarriedFrom(q, keys);
      var ci := CarriedFrom(q, init);
      CarriedFromOrdered(q, init);
      CarriedFromSound(q, init);
      assert InKeyOrder(ci, init);
      forall i, j | 0 <= i < j < |c|
        ensures exists a, b :: 0 <= a < b < |keys| && keys[a] == c[i].key && keys[b] == c[j].key
      {
        if j < |ci| {
          assert c[i] == ci[i] && c[j] == ci[j];
          var a, b :| 0 <= a < b < |init| && init[a] == ci[i].key && init[b] == ci[j].key;
          assert keys[a] == c[i].key && keys[b] == c[j].key;
        } else {
          assert c[i] == ci[i] && c[i] in ci;
          assert c[i].key in init;
          var a :| 0 <= a < |init| && init[a] == c[i].key;
          var b := |keys| - 1;
          assert c[j] == CarriedFor(q, keys[b])[0];
          assert keys[a] == c[i].key && keys[b] == c[j].key;
        }
      }
    }
  }

  /** What preserveUTM promises about its result. */
  lemma PreservedProperties(url: string, search: Option<seq<Param>>)
    ensures search.None? ==> Preserved(url, search) == url
    ensures search.Some? && Carried(search.value) == [] ==> Preserved(url, search) == url
    ensures url <= Preserved(url, search)
    ensures search.Some? && Carried(search.value) != [] ==>
              Preserved(url, search) == url + (if '?' in url then "&" else "?") + Serialize(Carried(search.value))
  {
  }

  /** The whitelist order and contents: a pair is carried iff its key is
      whitelisted and the current query gives that key a non-empty first value;
      no other query parameter is carried. */
  lemma CarriedExactly(q: seq<Param>, p: Param)
    ensures p in Carried(q) <==> p.key in UtmKeys && Get(q, p.key) == Some(p.value) && p.value != ""
  {
    CarriedFromSound(q, UtmKeys);
    CarriedFromComplete(q, UtmKeys);
  }

  /** The query of the unit test's case: source and medium set. */
  const TestQuery := [Param("utm_source", "test"), Param("utm_medium", "email")]

  lemma TestQueryGets()
    ensures Get(TestQuery, "utm_source") == Some("test")
    ensures Get(TestQuery, "utm_medium") == Some("email")
    ensures Get(TestQuery, "utm_campaign") == None
    ensures Get(TestQuery, "utm_term") == None
    ensures Get(TestQuery, "utm_content") == None
  {
    assert "utm_source"[4] != "utm_medium"[4];
  }

  lemma TestQueryCarried()
    ensures Carried(TestQuery) == TestQuery
  {
    var q := TestQuery;
    TestQueryGets();
    var k1, k2, k3, k4, k5 := "utm_source", "utm_medium", "utm_campaign", "utm_term", "utm_content";
    assert UtmKeys == [] + [k1] + [k2] + [k3] + [k4] + [k5];
    CarriedFromSnoc(q, [], k1);
    CarriedFromSnoc(q, [] + [k1], k2);
    CarriedFromSnoc(q, [] + [k1] + [k2], k3);
    CarriedFromSnoc(q, [] + [k1] + [k2] + [k3], k4);
    CarriedFromSnoc(q, [] + [k1] + [k2] + [k3] + [k4], k5);
  }

  /** The unit test's case: source and medium carried, in that order, after '?'. */
  lemma TestCaseSourceAndMedium()
    ensures Preserved("https://example.com/path", Some(TestQuery))
            == "https://example.com/path" + "?" + "utm_source=test&utm_medium=email"
  {
    TestQueryCarried();
    TestQuerySerialized();
    TestUrlHasNoQuery();
  }

  lemma TestQuerySerialized()
    ensures Serialize(TestQuery) == "utm_source=test&utm_medium=email"
  {
    assert TestQuery[..1] == [Param("utm_source", "test")];
  }

  lemma TestUrlHasNoQuery()
    ensures Separator("https://example.com/path") == "?"
  {
    var url := "https://example.com/path";
    assert forall i :: 0 <= i < |url| ==> url[i] != '?';
  }
}
