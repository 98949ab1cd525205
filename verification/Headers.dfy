/** Case-insensitive merging of request headers. Lower-casing is a parameter: nothing here depends on
    what it does. A header object is the list of its entries in the order they are enumerated. */
module Headers {
  import opened Options

  type Value = Option<string>     // `None` stands for null

  datatype Header = Header(name: string, value: Value)

  type Lower = string -> string

  /** Property names are unique, spelling included. */
  ghost predicate IsObject(h: seq<Header>) {
    forall i, j :: 0 <= i < j < |h| ==> h[i].name != h[j].name
  }

  /** How many names are spellings of a field. */
  function Count(lower: Lower, h: seq<Header>, field: string): nat {
    if h == [] then 0
    else Count(lower, h[..|h| - 1], field) + if lower(h[|h| - 1].name) == field then 1 else 0
  }

  /** No two names differ in case only. */
  ghost predicate CollisionFree(lower: Lower, h: seq<Header>) {
    forall field :: Count(lower, h, field) <= 1
  }

  /** The header fields: by lower-case name, the last entry, which has the spelling and the value. */
  function Fields(lower: Lower, h: seq<Header>): map<string, Header> {
    if h == [] then map[]
    else Fields(lower, h[..|h| - 1])[lower(h[|h| - 1].name) := h[|h| - 1]]
  }

  // Specification

  function Without(lower: Lower, h: seq<Header>, field: string): seq<Header> {
    if h == [] then []
    else
      var init, last := Without(lower, h[..|h| - 1], field), h[|h| - 1];
      if lower(last.name) == field then init else init + [last]
  }

  function Put(lower: Lower, h: seq<Header>, e: Header): seq<Header> {
    Without(lower, h, lower(e.name)) + [e]
  }

  function PutAll(lower: Lower, base: seq<Header>, override: seq<Header>): seq<Header> {
    if override == [] then base
    else Put(lower, PutAll(lower, base, override[..|override| - 1]), override[|override| - 1])
  }

  function Entries(h: Option<seq<Header>>): seq<Header> {
    if h.Some? then h.value else []
  }

  function Merge(lower: Lower, base: Option<seq<Header>>, override: Option<seq<Header>>): Option<seq<Header>> {
    if base.None? && override.None? then None else Some(PutAll(lower, Entries(base), Entries(override)))
  }

  // Objects as they are updated

  /** The property with exactly this name, or -1. */
  function IndexOf(h: seq<Header>, name: string): (k: int)
    ensures -1 <= k < |h|
    ensures k >= 0 ==> h[k].name == name
    ensures k < 0 ==> forall i :: 0 <= i < |h| ==> h[i].name != name
  {
    if h == [] then -1
    else if h[|h| - 1].name == name then |h| - 1
    else IndexOf(h[..|h| - 1], name)
  }

  function Delete(h: seq<Header>, name: string): seq<Header> {
    var k := IndexOf(h, name);
    if k < 0 then h else h[..k] + h[k + 1..]
  }

  /** Keeps the place of a name that is there. */
  function Set(h: seq<Header>, e: Header): seq<Header> {
    var k := IndexOf(h, e.name);
    if k < 0 then h + [e] else h[k := e]
  }

  method MergeHeaders(lower: Lower, base: Option<seq<Header>>, override: Option<seq<Header>>) returns (r: Option<seq<Header>>)
    requires IsObject(Entries(base)) && IsObject(Entries(override))
    ensures r == Merge(lower, base, override)
    ensures r.Some? ==> IsObject(r.value)
  {
    if base.None? && override.None? {
      return None;
    }
    var merged, entries := Entries(base), Entries(override);
    for i := 0 to |entries|
      invariant IsObject(merged) && merged == PutAll(lower, Entries(base), entries[..i])
    {
      merged := DeleteField(lower, merged, lower(entries[i].name));
      WithoutLacks(lower, PutAll(lower, Entries(base), entries[..i]), lower(entries[i].name));
      merged := Set(merged, entries[i]);
      assert entries[..i + 1][..i] == entries[..i];
    }
    assert entries[..|entries|] == entries;
    r := Some(merged);
  }

  /** The inner loop: deletes every name that is the field's. */
  method DeleteField(lower: Lower, h: seq<Header>, lowerName: string) returns (merged: seq<Header>)
    requires IsObject(h)
    ensures IsObject(merged) && merged == Without(lower, h, lowerName)
  {
    merged := h;
    ghost var kept := [];
    for k := 0 to |h|
      invariant kept == Without(lower, h[..k], lowerName)
      invariant IsObject(merged) && merged == kept + h[k..]
    {
      Partway(lower, h, k, lowerName, kept, merged);
      if lower(h[k].name) == lowerName {
        merged := Delete(merged, h[k].name);
      } else {
        kept := kept + [h[k]];
      }
    }
    assert h[..|h|] == h && h[|h|..] == [];
  }

  lemma Partway(lower: Lower, h: seq<Header>, k: nat, field: string, kept: seq<Header>, merged: seq<Header>)
    requires k < |h| && kept == Without(lower, h[..k], field)
    requires IsObject(merged) && merged == kept + h[k..]
    ensures lower(h[k].name) == field ==>
              var next := Delete(merged, h[k].name);
              IsObject(next) && next == kept + h[k + 1..] && kept == Without(lower, h[..k + 1], field)
    ensures lower(h[k].name) != field ==>
              merged == kept + [h[k]] + h[k + 1..] && kept + [h[k]] == Without(lower, h[..k + 1], field)
  {
    WithoutNext(lower, h, k, field);
    var e, back := h[k], h[k + 1..];
    assert h[k..] == [e] + back;
    DeleteBetween(kept, e, back, merged);
    Regroup(kept, e, back);
  }

  lemma Regroup(front: seq<Header>, e: Header, back: seq<Header>)
    ensures front + ([e] + back) == front + [e] + back
  {
  }

  lemma WithoutNext(lower: Lower, h: seq<Header>, k: nat, field: string)
    requires k < |h|
    ensures var rest := Without(lower, h[..k], field);
            Without(lower, h[..k + 1], field) == if lower(h[k].name) == field then rest else rest + [h[k]]
  {
    assert h[..k + 1][..k] == h[..k];
  }

  lemma DeleteBetween(front: seq<Header>, e: Header, back: seq<Header>, all: seq<Header>)
    requires all == front + ([e] + back) && IsObject(all)
    ensures Delete(all, e.name) == front + back && IsObject(front + back)
  {
    assert all[|front|] == e;
    assert IndexOf(all, e.name) == |front|;
    assert all[..|front|] == front && all[|front| + 1..] == back;
    var both := front + back;
    forall i, j | 0 <= i < j < |both| ensures both[i].name != both[j].name {
      var i', j' := if i < |front| then i else i + 1, if j < |front| then j else j + 1;
      assert both[i] == all[i'] && both[j] == all[j'];
    }
  }

  // What merging means

  lemma {:induction false} WithoutLacks(lower: Lower, h: seq<Header>, field: string)
    ensures forall k :: 0 <= k < |Without(lower, h, field)| ==> lower(Without(lower, h, field)[k].name) != field
  {
    if h != [] { WithoutLacks(lower, h[..|h| - 1], field); }
  }

  lemma {:induction false} FieldsWithout(lower: Lower, h: seq<Header>, field: string)
    ensures Fields(lower, Without(lower, h, field)) == Fields(lower, h) - {field}
  {
    if h != [] {
      var init, last := h[..|h| - 1], h[|h| - 1];
      FieldsWithout(lower, init, field);
      FieldsOfNext(lower, Without(lower, init, field), last);
      RemoveAfterSet(Fields(lower, init), lower(last.name), last, field);
    }
  }

  lemma RemoveAfterSet(fields: map<string, Header>, key: string, e: Header, field: string)
    ensures fields[key := e] - {field} == if key == field then fields - {field} else (fields - {field})[key := e]
  {
  }

  lemma FieldsOfNext(lower: Lower, h: seq<Header>, e: Header)
    ensures Fields(lower, h + [e]) == Fields(lower, h)[lower(e.name) := e]
  {
    assert (h + [e])[..|h|] == h;
  }

  lemma PutSets(lower: Lower, h: seq<Header>, e: Header)
    ensures Fields(lower, Put(lower, h, e)) == Fields(lower, h)[lower(e.name) := e]
  {
    FieldsWithout(lower, h, lower(e.name));
    FieldsOfNext(lower, Without(lower, h, lower(e.name)), e);
  }

  /** Merging is the right-biased union of the fields: the override wins, with its spelling. */
  lemma {:induction false} MergeIsUnion(lower: Lower, base: seq<Header>, override: seq<Header>)
    ensures Fields(lower, PutAll(lower, base, override)) == Fields(lower, base) + Fields(lower, override)
  {
    if override != [] {
      var init, last := override[..|override| - 1], override[|override| - 1];
      MergeIsUnion(lower, base, init);
      PutSets(lower, PutAll(lower, base, init), last);
    }
  }

  // Collisions

  lemma CountOfNext(lower: Lower, h: seq<Header>, e: Header, field: string)
    ensures Count(lower, h + [e], field) == Count(lower, h, field) + if lower(e.name) == field then 1 else 0
  {
    assert (h + [e])[..|h|] == h;
  }

  lemma {:induction false} CountWithout(lower: Lower, h: seq<Header>, removed: string, field: string)
    ensures Count(lower, Without(lower, h, removed), field) == if field == removed then 0 else Count(lower, h, field)
  {
    if h != [] {
      var init, last := h[..|h| - 1], h[|h| - 1];
      CountWithout(lower, init, removed, field);
      CountOfNext(lower, Without(lower, init, removed), last, field);
    }
  }

  /** An overridden field has one name afterwards, any other as many as before. */
  lemma {:induction false} MergeCounts(lower: Lower, base: seq<Header>, override: seq<Header>, field: string)
    ensures Count(lower, PutAll(lower, base, override), field)
            == if Count(lower, override, field) > 0 then 1 else Count(lower, base, field)
  {
    if override != [] {
      var init, last := override[..|override| - 1], override[|override| - 1];
      var h := PutAll(lower, base, init);
      MergeCounts(lower, base, init, field);
      CountWithout(lower, h, lower(last.name), field);
      CountOfNext(lower, Without(lower, h, lower(last.name)), last, field);
    }
  }

  ghost predicate CoversCollisions(lower: Lower, base: seq<Header>, override: seq<Header>) {
    forall field :: Count(lower, base, field) <= 1 || Count(lower, override, field) > 0
  }

  /** The result is free of collisions exactly when the override covers those of the base. */
  lemma MergeCollisions(lower: Lower, base: seq<Header>, override: seq<Header>)
    ensures CollisionFree(lower, PutAll(lower, base, override)) <==> CoversCollisions(lower, base, override)
  {
    var merged := PutAll(lower, base, override);
    if CollisionFree(lower, merged) {
      forall field ensures Count(lower, base, field) <= 1 || Count(lower, override, field) > 0 {
        MergeCounts(lower, base, override, field);
        assert Count(lower, merged, field) <= 1;
      }
    }
    if CoversCollisions(lower, base, override) {
      forall field ensures Count(lower, merged, field) <= 1 {
        MergeCounts(lower, base, override, field);
        assert Count(lower, base, field) <= 1 || Count(lower, override, field) > 0;
      }
    }
  }

  // Associativity

  lemma WithoutOfNext(lower: Lower, h: seq<Header>, e: Header, field: string)
    ensures Without(lower, h + [e], field)
            == if lower(e.name) == field then Without(lower, h, field) else Without(lower, h, field) + [e]
  {
    assert (h + [e])[..|h|] == h;
  }

  lemma {:induction false} WithoutCommutes(lower: Lower, h: seq<Header>, f: string, g: string)
    ensures Without(lower, Without(lower, h, f), g) == Without(lower, Without(lower, h, g), f)
    ensures Without(lower, Without(lower, h, f), f) == Without(lower, h, f)
  {
    if h != [] {
      var init, last := h[..|h| - 1], h[|h| - 1];
      WithoutCommutes(lower, init, f, g);
      WithoutOfNext(lower, Without(lower, init, f), last, g);
      WithoutOfNext(lower, Without(lower, init, g), last, f);
      WithoutOfNext(lower, Without(lower, init, f), last, f);
    }
  }

  /** What a later entry replaces need not be put at all. */
  lemma {:induction false} ReplacedNeedNotBePut(lower: Lower, base: seq<Header>, h: seq<Header>, f: string)
    ensures Without(lower, PutAll(lower, base, Without(lower, h, f)), f) == Without(lower, PutAll(lower, base, h), f)
  {
    if h != [] {
      var init, last := h[..|h| - 1], h[|h| - 1];
      ReplacedNeedNotBePut(lower, base, init, f);
      var g, rest := lower(last.name), Without(lower, init, f);
      var p, q := PutAll(lower, base, init), PutAll(lower, base, rest);
      WithoutOfNext(lower, Without(lower, p, g), last, f);
      WithoutCommutes(lower, p, f, g);
      if g != f {
        assert (rest + [last])[..|rest|] == rest;
        WithoutOfNext(lower, Without(lower, q, g), last, f);
        WithoutCommutes(lower, q, f, g);
      }
    }
  }

  lemma PutAllPut(lower: Lower, base: seq<Header>, h: seq<Header>, e: Header)
    ensures PutAll(lower, base, Put(lower, h, e)) == Put(lower, PutAll(lower, base, h), e)
  {
    var rest := Without(lower, h, lower(e.name));
    assert (rest + [e])[..|rest|] == rest;
    ReplacedNeedNotBePut(lower, base, h, lower(e.name));
  }

  /** Merging is associative, down to the order and spelling of the entries. */
  lemma {:induction false} MergeIsAssociative(lower: Lower, a: seq<Header>, b: seq<Header>, c: seq<Header>)
    ensures PutAll(lower, PutAll(lower, a, b), c) == PutAll(lower, a, PutAll(lower, b, c))
  {
    if c != [] {
      var init, last := c[..|c| - 1], c[|c| - 1];
      MergeIsAssociative(lower, a, b, init);
      PutAllPut(lower, a, PutAll(lower, b, init), last);
    }
  }

  // Order

  /** The base's entries that are not overridden, in their order. */
  function Kept(lower: Lower, base: seq<Header>, override: seq<Header>): seq<Header> {
    if base == [] then []
    else
      var last := base[|base| - 1];
      Kept(lower, base[..|base| - 1], override)
      + if Count(lower, override, lower(last.name)) == 0 then [last] else []
  }

  lemma {:induction false} KeptWithout(lower: Lower, base: seq<Header>, override: seq<Header>, e: Header)
    ensures Without(lower, Kept(lower, base, override), lower(e.name)) == Kept(lower, base, override + [e])
  {
    if base != [] {
      var init, last := base[..|base| - 1], base[|base| - 1];
      KeptWithout(lower, init, override, e);
      CountOfNext(lower, override, e, lower(last.name));
      WithoutOfNext(lower, Kept(lower, init, override), last, lower(e.name));
      assert Kept(lower, init, override) + [] == Kept(lower, init, override);
    }
  }

  lemma {:induction false} KeptAll(lower: Lower, base: seq<Header>)
    ensures Kept(lower, base, []) == base
  {
    if base != [] { KeptAll(lower, base[..|base| - 1]); }
  }

  lemma {:induction false} WithoutAppended(lower: Lower, h: seq<Header>, tail: seq<Header>, field: string)
    requires Count(lower, tail, field) == 0
    ensures Without(lower, h + tail, field) == Without(lower, h, field) + tail
    decreases |tail|
  {
    if tail == [] {
      assert h + tail == h;
      assert Without(lower, h, field) + tail == Without(lower, h, field);
    } else {
      var init, last := tail[..|tail| - 1], tail[|tail| - 1];
      assert h + tail == (h + init) + [last];
      WithoutAppended(lower, h, init, field);
      WithoutOfNext(lower, h + init, last, field);
      assert Without(lower, h, field) + init + [last] == Without(lower, h, field) + tail;
    }
  }

  /** An override without collisions follows, in its order, what is kept of the base in its order. */
  lemma {:induction false} MergeInOrder(lower: Lower, base: seq<Header>, override: seq<Header>)
    requires CollisionFree(lower, override)
    ensures PutAll(lower, base, override) == Kept(lower, base, override) + override
  {
    if override == [] {
      KeptAll(lower, base);
    } else {
      var init, last := override[..|override| - 1], override[|override| - 1];
      assert override == init + [last];
      forall field ensures Count(lower, init, field) <= 1 { assert Count(lower, override, field) <= 1; CountOfNext(lower, init, last, field); }
      MergeInOrder(lower, base, init);
      assert Count(lower, override, lower(last.name)) <= 1;
      CountOfNext(lower, init, last, lower(last.name));
      WithoutAppended(lower, Kept(lower, base, init), init, lower(last.name));
      KeptWithout(lower, base, init, last);
      assert Kept(lower, base, override) + init + [last] == Kept(lower, base, override) + override;
    }
  }

  // A request

  /** Headers of a request: of the provider's authentication, of the model, of the request. */
  function RequestHeaders(lower: Lower, auth: Option<seq<Header>>, model: Option<seq<Header>>, options: Option<seq<Header>>)
    : Option<seq<Header>>
  {
    Merge(lower, if model.None? then auth else Merge(lower, auth, model), options)
  }

  /** Each later source wins field by field; the model's and the request's headers may be merged first. */
  lemma RequestHeadersLayer(lower: Lower, auth: Option<seq<Header>>, model: Option<seq<Header>>, options: Option<seq<Header>>)
    ensures var r := RequestHeaders(lower, auth, model, options);
            && r == Merge(lower, auth, Merge(lower, model, options))
            && Fields(lower, Entries(r))
                 == Fields(lower, Entries(auth)) + Fields(lower, Entries(model)) + Fields(lower, Entries(options))
            && (r.None? <==> auth.None? && model.None? && options.None?)
  {
    var a, m, o := Entries(auth), Entries(model), Entries(options);
    MergeIsAssociative(lower, a, m, o);
    MergeIsUnion(lower, a, m);
    MergeIsUnion(lower, PutAll(lower, a, m), o);
  }
}
