/** Turning a page number into a request (scrapequeue/pipeline/pageurl.py).  A
    Python dict is a sequence of pairs with distinct keys, in insertion order. */
module PageUrl {
  import opened Wrappers
  import Text

  type Pair = (string, string)

  /** What urlparse keeps apart: everything but the query, and the raw query. */
  datatype Url = Url(rest: string, query: string)

  /** urlencode and parse_qsl(keep_blank_values=True). */
  datatype Codec = Codec(encode: seq<Pair> -> string, decode: string -> seq<Pair>)

  datatype Kind = QueryParam | NextLink | Offset

  datatype Pagination = Pagination(kind: Kind, param: Option<string>, start: int, step: int)

  /** The part of a TargetSpec that addresses pages; `params` as text. */
  datatype Spec = Spec(startUrl: Url, get: bool, pagination: Pagination, params: seq<Pair>)

  datatype Error = UnsupportedPagination | PageBelowOne

  // ----- insertion-ordered dictionaries -----

  predicate Has(d: seq<Pair>, key: string) {
    exists i :: 0 <= i < |d| && d[i].0 == key
  }

  function Keys(d: seq<Pair>): seq<string> {
    seq(|d|, i requires 0 <= i < |d| => d[i].0)
  }

  ghost predicate IsDict(d: seq<Pair>) {
    forall i, j :: 0 <= i < j < |d| ==> d[i].0 != d[j].0
  }

  /** d[key] = value */
  function Put(d: seq<Pair>, key: string, value: string): (r: seq<Pair>)
    ensures |r| == if Has(d, key) then |d| else |d| + 1
  {
    if d == [] then [(key, value)]
    else if d[0].0 == key then [(key, value)] + d[1..]
    else
      assert Has(d, key) <==> Has(d[1..], key) by {
        if Has(d, key) {
          var i :| 0 <= i < |d| && d[i].0 == key;
          assert d[1..][i - 1].0 == key;
        }
        if Has(d[1..], key) {
          var i :| 0 <= i < |d[1..]| && d[1..][i].0 == key;
          assert d[i + 1].0 == key;
        }
      }
      [d[0]] + Put(d[1..], key, value)
  }

  /** {**d, **more}, and dict(more) for an empty d */
  function Merge(d: seq<Pair>, more: seq<Pair>): seq<Pair>
    decreases |more|
  {
    if more == [] then d else Merge(Put(d, more[0].0, more[0].1), more[1..])
  }

  function Lookup(d: seq<Pair>, key: string): Option<string> {
    if d == [] then None
    else if d[0].0 == key then Some(d[0].1)
    else Lookup(d[1..], key)
  }

  /** The value that a list of pairs assigns to a key last. */
  function LastValue(d: seq<Pair>, key: string): Option<string> {
    if d == [] then None
    else if d[|d| - 1].0 == key then Some(d[|d| - 1].1)
    else LastValue(d[..|d| - 1], key)
  }

  // ----- the request -----

  function PageValue(spec: Spec, page: int): Result<int, Error> {
    if page < 1 then Err(PageBelowOne)
    else Ok(spec.pagination.start + (page - 1) * spec.pagination.step)
  }

  /** The query of a page as a dict: spec parameters, overridden by the base URL. */
  function BaseQuery(codec: Codec, spec: Spec, url: Url): seq<Pair> {
    var query := Merge([], codec.decode(url.query));
    if spec.get then Merge(Merge([], spec.params), query) else query
  }

  function PageUrl(codec: Codec, spec: Spec, page: int, base: Option<Url>): Result<Url, Error> {
    var url := BaseOf(spec, base);
    var pag := spec.pagination;
    if pag.kind == NextLink || pag.param.None? || pag.param.value == "" then Err(UnsupportedPagination)
    else
      match PageValue(spec, page)
      case Err(e) => Err(e)
      case Ok(value) =>
        var query := Put(BaseQuery(codec, spec, url), pag.param.value, Text.Str(value));
        Ok(url.(query := codec.encode(query)))
  }

  /** base_url or start_url: an empty string counts as none. */
  function BaseOf(spec: Spec, base: Option<Url>): Url {
    if base.Some? && base.value != Url("", "") then base.value else spec.startUrl
  }

  // ----- lemmas about dictionaries -----

  lemma HasTail(d: seq<Pair>, key: string)
    requires d != []
    ensures Has(d, key) <==> d[0].0 == key || Has(d[1..], key)
  {
    if Has(d, key) && d[0].0 != key {
      var i :| 0 <= i < |d| && d[i].0 == key;
      assert d[1..][i - 1].0 == key;
    }
    if Has(d[1..], key) {
      var i :| 0 <= i < |d[1..]| && d[1..][i].0 == key;
      assert d[i + 1].0 == key;
    }
  }

  /** Assignment replaces in place or appends. */
  lemma {:induction false} PutPlaces(d: seq<Pair>, key: string, value: string)
    requires IsDict(d)
    ensures forall i :: 0 <= i < |d| && d[i].0 == key ==> Put(d, key, value) == d[i := (key, value)]
    ensures !Has(d, key) ==> Put(d, key, value) == d + [(key, value)]
    ensures IsDict(Put(d, key, value))
  {
    if d != [] {
      HasTail(d, key);
      if d[0].0 != key {
        var rest := d[1..];
        PutPlaces(rest, key, value);
        forall i | 0 <= i < |d| && d[i].0 == key
          ensures Put(d, key, value) == d[i := (key, value)]
        {
          assert rest[i - 1].0 == key;
        }
        if !Has(d, key) {
          assert d == [d[0]] + rest;
        }
      } else {
        assert [(key, value)] + d[1..] == d[0 := (key, value)];
        assert d[0].0 == key;
      }
    }
    if Has(d, key) {
      var i :| 0 <= i < |d| && d[i].0 == key;
      assert Put(d, key, value) == d[i := (key, value)];
    }
  }

  lemma PutTwice(d: seq<Pair>, key: string, first: string, second: string)
    requires IsDict(d)
    ensures Put(Put(d, key, first), key, second) == Put(d, key, second)
  {
    PutPlaces(d, key, first);
    PutPlaces(d, key, second);
    var e := Put(d, key, first);
    PutPlaces(e, key, second);
    var i := if Has(d, key) then var j :| 0 <= j < |d| && d[j].0 == key; j else |d|;
    assert e[i].0 == key;
  }

  /** The key order of a dict is a prefix of the order after any assignments. */
  ghost predicate Extends(d: seq<Pair>, e: seq<Pair>) {
    |d| <= |e| && forall i :: 0 <= i < |d| ==> d[i].0 == e[i].0
  }

  lemma {:induction false} MergeExtends(d: seq<Pair>, more: seq<Pair>)
    requires IsDict(d)
    ensures IsDict(Merge(d, more)) && Extends(d, Merge(d, more))
    decreases |more|
  {
    if more != [] {
      PutPlaces(d, more[0].0, more[0].1);
      MergeExtends(Put(d, more[0].0, more[0].1), more[1..]);
    }
  }

  /** Merging a dict over one whose keys it starts with gives that dict itself:
      same values, same order. */
  lemma {:induction false} MergeOverPrefix(p: seq<Pair>, d: seq<Pair>, k: nat)
    requires IsDict(p) && IsDict(d) && Extends(p, d) && k <= |d|
    ensures Merge(d[..k] + if k <= |p| then p[k..] else [], d[k..]) == d
    decreases |d| - k
  {
    var now := d[..k] + if k <= |p| then p[k..] else [];
    if k == |d| {
      assert now == d;
    } else {
      var next := d[..k + 1] + if k + 1 <= |p| then p[k + 1..] else [];
      assert d[k..][1..] == d[k + 1..] && d[k..][0] == d[k];
      assert IsDict(now);
      PutPlaces(now, d[k].0, d[k].1);
      if k < |p| {
        assert now[k].0 == d[k].0;
        assert now[k := d[k]] == next;
      } else {
        assert forall i :: 0 <= i < k ==> now[i].0 == d[i].0;
        assert !Has(now, d[k].0);
        assert now + [d[k]] == next;
      }
      assert (d[k].0, d[k].1) == d[k];
      MergeOverPrefix(p, d, k + 1);
    }
  }

  lemma {:induction false} PutLookup(d: seq<Pair>, key: string, value: string, k: string)
    ensures Lookup(Put(d, key, value), k) == if k == key then Some(value) else Lookup(d, k)
  {
    if d != [] && d[0].0 != key {
      PutLookup(d[1..], key, value, k);
    }
  }

  lemma {:induction false} MergeLookup(d: seq<Pair>, more: seq<Pair>, k: string)
    ensures Lookup(Merge(d, more), k) == if LastValue(more, k).Some? then LastValue(more, k) else Lookup(d, k)
    decreases |more|
  {
    if more != [] {
      PutLookup(d, more[0].0, more[0].1, k);
      MergeLookup(Put(d, more[0].0, more[0].1), more[1..], k);
      LastValueTail(more, k);
    }
  }

  lemma {:induction false} LastValueTail(d: seq<Pair>, k: string)
    requires d != []
    ensures LastValue(d, k) == if LastValue(d[1..], k).Some? then LastValue(d[1..], k)
                               else if d[0].0 == k then Some(d[0].1) else None
    decreases |d|
  {
    if |d| > 1 {
      var front := d[..|d| - 1];
      LastValueTail(front, k);
      assert front[1..] == d[1..][..|d[1..]| - 1];
    } else {
      assert d[..|d| - 1] == [];
    }
  }

  lemma {:induction false} LookupIsLastValue(d: seq<Pair>, k: string)
    requires IsDict(d)
    ensures LastValue(d, k) == Lookup(d, k)
  {
    if d != [] {
      LastValueTail(d, k);
      LookupIsLastValue(d[1..], k);
      if d[0].0 == k && Lookup(d[1..], k).Some? {
        LookupFinds(d[1..], k);
      }
    }
  }

  lemma {:induction false} LookupFinds(d: seq<Pair>, k: string)
    ensures Lookup(d, k).Some? ==> exists i :: 0 <= i < |d| && d[i].0 == k
  {
    if d != [] && d[0].0 != k {
      LookupFinds(d[1..], k);
      if Lookup(d, k).Some? {
        var i :| 0 <= i < |d[1..]| && d[1..][i].0 == k;
        assert d[i + 1].0 == k;
      }
    }
  }

  // ----- the promises -----

  /** Decoding undoes encoding of a dict, and an empty query has no parameters. */
  ghost predicate Faithful(codec: Codec) {
    && codec.decode("") == []
    && forall d: seq<Pair> :: IsDict(d) ==> codec.decode(codec.encode(d)) == d
  }

  lemma QueryIsDict(codec: Codec, spec: Spec, url: Url)
    ensures IsDict(Merge([], codec.decode(url.query)))
    ensures IsDict(BaseQuery(codec, spec, url))
  {
    MergeExtends([], codec.decode(url.query));
    MergeExtends([], spec.params);
    MergeExtends(Merge([], spec.params), Merge([], codec.decode(url.query)));
  }

  /** The page parameter wins over the base URL, which wins over the spec. */
  lemma QueryLayers(codec: Codec, spec: Spec, page: int, base: Option<Url>, k: string)
    requires Faithful(codec) && PageUrl(codec, spec, page, base).Ok?
    ensures var given := LastValue(codec.decode(BaseOf(spec, base).query), k);
            Lookup(codec.decode(PageUrl(codec, spec, page, base).value.query), k)
            == if k == spec.pagination.param.value
               then Some(Text.Str(spec.pagination.start + (page - 1) * spec.pagination.step))
               else if given.Some? then given
               else if spec.get then LastValue(spec.params, k)
               else None
    ensures PageUrl(codec, spec, page, base).value.rest == BaseOf(spec, base).rest
  {
    var url := BaseOf(spec, base);
    var query := BaseQuery(codec, spec, url);
    QueryIsDict(codec, spec, url);
    PutPlaces(query, spec.pagination.param.value, Text.Str(PageValue(spec, page).value));
    PutLookup(query, spec.pagination.param.value, Text.Str(PageValue(spec, page).value), k);
    MergeLookup([], codec.decode(url.query), k);
    MergeLookup([], spec.params, k);
    MergeLookup(Merge([], spec.params), Merge([], codec.decode(url.query)), k);
    LookupIsLastValue(Merge([], codec.decode(url.query)), k);
  }

  lemma PutExtends(d: seq<Pair>, k: string, v: string)
    requires IsDict(d)
    ensures IsDict(Put(d, k, v)) && Put(d, k, v) != [] && Extends(d, Put(d, k, v))
  {
    PutPlaces(d, k, v);
    if Has(d, k) {
      var i :| 0 <= i < |d| && d[i].0 == k;
      assert Put(d, k, v) == d[i := (k, v)];
    }
  }

  /** Merging a dict over the beginning of its own key order changes nothing. */
  lemma MergeIsAbsorbed(p: seq<Pair>, d: seq<Pair>)
    requires IsDict(p) && IsDict(d) && Extends(p, d)
    ensures Merge(p, d) == d
  {
    MergeOverPrefix(p, d, 0);
    assert d[..0] + p[0..] == p && d[0..] == d;
  }

  /** Pages count from 1: the first is asked for with the start value, each next one
      with a step more, and exactly the pages below 1 have no URL. */
  lemma PagesCountFromOne(codec: Codec, spec: Spec, base: Option<Url>, page: int)
    requires Faithful(codec) && PageUrl(codec, spec, 1, base).Ok?
    ensures PageUrl(codec, spec, page, base).Ok? <==> page >= 1
    ensures var first := codec.decode(PageUrl(codec, spec, 1, base).value.query);
            Lookup(first, spec.pagination.param.value) == Some(Text.Str(spec.pagination.start))
    ensures page >= 1 ==>
              && PageValue(spec, page + 1).value == PageValue(spec, page).value + spec.pagination.step
              && Lookup(codec.decode(PageUrl(codec, spec, page, base).value.query), spec.pagination.param.value)
                 == Some(Text.Str(PageValue(spec, page).value))
  {
    QueryLayers(codec, spec, 1, base, spec.pagination.param.value);
    if page >= 1 {
      QueryLayers(codec, spec, page, base, spec.pagination.param.value);
      assert page * spec.pagination.step == (page - 1) * spec.pagination.step + spec.pagination.step;
    }
  }

  /** Parameters keep their order: the spec's come first, then those that the base URL
      adds, then the page parameter if neither has it. */
  lemma ParameterOrder(codec: Codec, spec: Spec, page: int, base: Option<Url>)
    requires Faithful(codec) && PageUrl(codec, spec, page, base).Ok?
    ensures var given := Merge([], codec.decode(BaseOf(spec, base).query));
            var paged := codec.decode(PageUrl(codec, spec, page, base).value.query);
            var query := if spec.get then Merge(Merge([], spec.params), given) else given;
            && Extends(if spec.get then Merge([], spec.params) else given, query) && Extends(query, paged)
            && |paged| == |query| + if Has(query, spec.pagination.param.value) then 0 else 1
  {
    var query := BaseQuery(codec, spec, BaseOf(spec, base));
    var param, value := spec.pagination.param.value, Text.Str(PageValue(spec, page).value);
    QueryIsDict(codec, spec, BaseOf(spec, base));
    MergeExtends([], spec.params);
    MergeExtends(Merge([], spec.params), Merge([], codec.decode(BaseOf(spec, base).query)));
    PutExtends(query, param, value);
    PutPlaces(query, param, value);
  }

  /** Pages are those of the URL that is given; with none, or an empty one, of the start
      URL. */
  lemma BaseComesFirst(codec: Codec, spec: Spec, page: int, url: Url)
    requires PageUrl(codec, spec, page, Some(url)).Ok?
    ensures url.rest != "" ==> PageUrl(codec, spec, page, Some(url)).value.rest == url.rest
    ensures PageUrl(codec, spec, page, None).Ok?
    ensures PageUrl(codec, spec, page, None) == PageUrl(codec, spec, page, Some(spec.startUrl))
    ensures PageUrl(codec, spec, page, None) == PageUrl(codec, spec, page, Some(Url("", "")))
    ensures PageUrl(codec, spec, page, None).value.rest == spec.startUrl.rest
  {
  }

  /** A target whose pages are links to follow, or that names no parameter, has none. */
  lemma AddressableTargets(codec: Codec, spec: Spec, base: Option<Url>)
    ensures PageUrl(codec, spec, 1, base).Ok? <==>
              spec.pagination.kind != NextLink && spec.pagination.param.Some? && spec.pagination.param.value != ""
  {
  }

  /** Merging the query `d` of a paged URL back over the spec changes nothing. */
  lemma PagedQueryIsKept(spec: Spec, given: seq<Pair>, query: seq<Pair>, param: string, value: string)
    requires IsDict(given)
    requires query == if spec.get then Merge(Merge([], spec.params), given) else given
    ensures var d := Put(query, param, value);
            && IsDict(d) && d != []
            && (if spec.get then Merge(Merge([], spec.params), Merge([], d)) else Merge([], d)) == d
  {
    var defaults, d := Merge([], spec.params), Put(query, param, value);
    MergeExtends([], spec.params);
    MergeExtends(defaults, given);
    PutExtends(query, param, value);
    MergeIsAbsorbed([], d);
    if spec.get {
      MergeIsAbsorbed(defaults, d);
    }
  }

  /** Re-paging is stable: paging an already paged URL gives the very URL that
      paging the base gives, parameter order included. */
  lemma RepagingIsStable(codec: Codec, spec: Spec, p: int, q: int, base: Option<Url>)
    requires Faithful(codec) && PageUrl(codec, spec, q, base).Ok?
    ensures PageUrl(codec, spec, p, Some(PageUrl(codec, spec, q, base).value)) == PageUrl(codec, spec, p, base)
  {
    var param, value := spec.pagination.param.value, Text.Str(PageValue(spec, q).value);
    var url := BaseOf(spec, base);
    var given, query := Merge([], codec.decode(url.query)), BaseQuery(codec, spec, url);
    var d := Put(query, param, value);
    QueryIsDict(codec, spec, url);
    PagedQueryIsKept(spec, given, query, param, value);
    var paged := Url(url.rest, codec.encode(d));
    assert codec.decode(paged.query) == d;
    assert BaseQuery(codec, spec, paged) == d;
    if PageValue(spec, p).Ok? {
      PutTwice(query, param, value, Text.Str(PageValue(spec, p).value));
    }
  }

  /** Distinct pages have distinct URLs exactly when the step is not zero. */
  lemma PagesAreAddressable(codec: Codec, spec: Spec, p: int, q: int, base: Option<Url>)
    requires Faithful(codec)
    requires PageUrl(codec, spec, p, base).Ok? && PageUrl(codec, spec, q, base).Ok?
    ensures PageUrl(codec, spec, p, base) == PageUrl(codec, spec, q, base) <==> p == q || spec.pagination.step == 0
  {
    var v, w := PageValue(spec, p).value, PageValue(spec, q).value;
    assert v - w == (p - q) * spec.pagination.step;
    if PageUrl(codec, spec, p, base) == PageUrl(codec, spec, q, base) {
      QueryLayers(codec, spec, p, base, spec.pagination.param.value);
      QueryLayers(codec, spec, q, base, spec.pagination.param.value);
      Text.StrIsInjective(v, w);
    }
  }
}
