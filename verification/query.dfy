/** URL query strings as sequences of key=value fields separated by '&'.
    `Render` writes fields out; `Parse` and `Lookup` read them back the way a receiving
    endpoint would: fields cut at every '&', each field cut at its first '='. */
module Query {
  import opened Results
  import opened Strings

  datatype Param = Param(key: string, value: string)

  /** `key=value` */
  function Field(p: Param): string
  {
    p.key + "=" + p.value
  }

  /** Reads one field: the key runs up to the first '='; a field without '=' is a bare key. */
  function ReadField(f: string): (p: Param)
    ensures '=' !in p.key
  {
    if '=' in f then
      var i := IndexOf(f, '=');
      Param(f[..i], f[i + 1..])
    else
      Param(f, "")
  }

  /** The fields of `ps`, in order. */
  function Fields(ps: seq<Param>): (fs: seq<string>)
    ensures |fs| == |ps|
    ensures forall k :: 0 <= k < |ps| ==> fs[k] == Field(ps[k])
  {
    if |ps| == 0 then [] else [Field(ps[0])] + Fields(ps[1..])
  }

  /** The fields of `ps` joined by '&'. */
  function Render(ps: seq<Param>): string
    requires 1 <= |ps|
  {
    Join(Fields(ps), '&')
  }

  /** Rendering one parameter writes its field alone. */
  lemma RenderOne(p: Param)
    ensures Render([p]) == Field(p)
  {
  }

  /** Rendering peels off the first parameter and its '&'. */
  lemma RenderCons(p: Param, ps: seq<Param>)
    requires 1 <= |ps|
    ensures Render([p] + ps) == Field(p) + "&" + Render(ps)
  {
    var fs := Fields([p] + ps);
    assert fs[1..] == Fields(ps);
  }

  /** Every field of a query string, in order. */
  function Parse(q: string): (ps: seq<Param>)
    ensures 1 <= |ps|
  {
    var fs := Split(q, '&');
    seq(|fs|, k requires 0 <= k < |fs| => ReadField(fs[k]))
  }

  /** A query string without '&' is one field. */
  lemma ParseOne(f: string)
    requires '&' !in f
    ensures Parse(f) == [ReadField(f)]
  {
  }

  /** Parsing peels off the field before the first '&'. */
  lemma ParseCons(f: string, rest: string)
    requires '&' !in f
    ensures Parse(f + "&" + rest) == [ReadField(f)] + Parse(rest)
  {
    SplitCons(f, '&', rest);
    var fs := Split(f + "&" + rest, '&');
    var ps := Parse(f + "&" + rest);
    var tail := Parse(rest);
    assert |ps| == 1 + |tail|;
    forall k | 0 <= k < |ps|
      ensures ps[k] == ([ReadField(f)] + tail)[k]
    {
      if 0 < k { assert fs[k] == Split(rest, '&')[k - 1]; }
    }
  }

  /** Parameters that survive rendering: keys free of '=' and '&', values free of '&'. */
  predicate Readable(ps: seq<Param>)
  {
    forall k :: 0 <= k < |ps| ==> '=' !in ps[k].key && '&' !in ps[k].key && '&' !in ps[k].value
  }

  /** Reading a field gives back the key and value it was written from. */
  lemma ReadFieldOfField(p: Param)
    requires '=' !in p.key
    ensures ReadField(Field(p)) == p
  {
    IndexOfAfter(p.key, '=', p.value);
    var f := Field(p);
    assert f[..|p.key|] == p.key;
    assert f[|p.key| + 1..] == p.value;
  }

  /** A single field free of '&' parses back to its parameter. */
  lemma ParseField(p: Param)
    requires '=' !in p.key && '&' !in p.key && '&' !in p.value
    ensures Parse(Field(p)) == [p]
  {
    assert '&' !in Field(p);
    ParseOne(Field(p));
    ReadFieldOfField(p);
  }

  /** Parsing a rendered query string gives back exactly the parameters rendered. */
  lemma ParseRender(ps: seq<Param>)
    requires 1 <= |ps|
    requires Readable(ps)
    ensures Parse(Render(ps)) == ps
  {
    var fs := Fields(ps);
    forall k | 0 <= k < |fs|
      ensures '&' !in fs[k]
    {
      assert fs[k] == ps[k].key + "=" + ps[k].value;
    }
    SplitJoin(fs, '&');
    forall k | 0 <= k < |ps|
      ensures ReadField(fs[k]) == ps[k]
    {
      ReadFieldOfField(ps[k]);
    }
  }

  /** The value of the first parameter named `key`, if any. */
  function Lookup(ps: seq<Param>, key: string): (v: Option<string>)
    ensures v.None? <==> forall k :: 0 <= k < |ps| ==> ps[k].key != key
    ensures v.Some? ==> exists i :: 0 <= i < |ps| && ps[i] == Param(key, v.value)
                                   && forall k :: 0 <= k < i ==> ps[k].key != key
  {
    if |ps| == 0 then None
    else if ps[0].key == key then Some(ps[0].value)
    else
      var v := Lookup(ps[1..], key);
      if v.Some? then
        var i :| 0 <= i < |ps[1..]| && ps[1..][i] == Param(key, v.value)
                 && forall k :: 0 <= k < i ==> ps[1..][k].key != key;
        assert ps[i + 1] == Param(key, v.value);
        assert forall k :: 0 <= k < i + 1 ==> ps[k].key != key by {
          forall k | 0 <= k < i + 1 ensures ps[k].key != key {
            if 0 < k { assert ps[k] == ps[1..][k - 1]; }
          }
        }
        v
      else
        assert forall k :: 0 <= k < |ps| ==> ps[k].key != key by {
          forall k | 0 <= k < |ps| ensures ps[k].key != key {
            if 0 < k { assert ps[k] == ps[1..][k - 1]; }
          }
        }
        v
  }

  /** Lookup finds the first parameter when it has the key. */
  lemma LookupHead(p: Param, ps: seq<Param>)
    ensures Lookup([p] + ps, p.key) == Some(p.value)
  {
  }

  /** Lookup passes over a first parameter with another key. */
  lemma LookupSkip(p: Param, ps: seq<Param>, key: string)
    requires p.key != key
    ensures Lookup([p] + ps, key) == Lookup(ps, key)
  {
    assert ([p] + ps)[1..] == ps;
  }

  /** The part of `url` after its first '?', if it has one. */
  function QueryOf(url: string): (q: Option<string>)
    ensures q.None? <==> '?' !in url
    ensures q.Some? ==> exists i :: 0 <= i < |url| && url[i] == '?' && '?' !in url[..i]
                                   && q.value == url[i + 1..]
  {
    if '?' in url then Some(url[IndexOf(url, '?') + 1..]) else None
  }

  /** The query of `base?q` is `q` when `base` holds no '?'. */
  lemma QueryOfAppend(base: string, q: string)
    requires '?' !in base
    ensures QueryOf(base + "?" + q) == Some(q)
  {
    IndexOfAfter(base, '?', q);
    assert (base + "?" + q)[|base| + 1..] == q;
  }

  /** The parameters a URL carries in its query, empty when it has none. */
  function Arguments(url: string): seq<Param>
  {
    match QueryOf(url)
    case None => []
    case Some(q) => Parse(q)
  }
}
