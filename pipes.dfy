/** ozpcenter/pipe/pipes.py: stateful pipes over an input iterator. The
    base class that feeds a pipe its starts is not part of this model; its
    role is played by Cursor, a sequence with a read position. A `None`
    from `ProcessNextStart` is the "no such element" exception that ends
    iteration. */
module Pipes {
  import opened Wrappers
  import opened Json
  import opened Text

  /** The iterator a pipe reads its starts from. */
  class Cursor<T> {
    const items: seq<T>
    var pos: nat

    ghost predicate Valid()
      reads this
    {
      pos <= |items|
    }

    constructor (items: seq<T>)
      ensures Valid() && this.items == items && pos == 0
    {
      this.items := items;
      pos := 0;
    }

    /** `next()`: the next item, or None once the items are used up. */
    method Next() returns (r: Option<T>)
      requires Valid()
      modifies this
      ensures Valid()
      ensures old(pos) < |items| ==> r == Some(items[old(pos)]) && pos == old(pos) + 1
      ensures old(pos) == |items| ==> r.None? && pos == old(pos)
    {
      if pos == |items| {
        return None;
      }
      r := Some(items[pos]);
      pos := pos + 1;
    }
  }

  /** `LimitPipe`: passes its starts through until `count` exceeds the
      limit; `count` starts at 1, so at most `limit_number` items pass. */
  class LimitPipe<T> {
    const starts: Cursor<T>
    const limitNumber: int
    var count: int
    /** What the pipe has yielded so far. */
    ghost var emitted: seq<T>

    ghost predicate Valid()
      reads this, starts
    {
      && starts.Valid()
      && count == starts.pos + 1
      && emitted == starts.items[..starts.pos]
      && (starts.pos == 0 || starts.pos <= limitNumber)
    }

    constructor (items: seq<T>, limitNumber: int)
      ensures Valid() && fresh(starts) && starts.items == items && this.limitNumber == limitNumber
      ensures emitted == []
    {
      starts := new Cursor(items);
      this.limitNumber := limitNumber;
      count := 1;
      emitted := [];
    }

    method ProcessNextStart() returns (r: Option<T>)
      requires Valid()
      modifies this, starts
      ensures Valid()
      ensures old(count) > limitNumber ==> r.None? && emitted == old(emitted)
      ensures r.Some? ==> emitted == old(emitted) + [r.value]
      ensures r.None? ==> emitted == old(emitted)
      ensures r.None? ==> old(count) > limitNumber || |emitted| == |starts.items|
      ensures |emitted| <= if limitNumber < 0 then 0 else limitNumber
      ensures emitted == starts.items[..|emitted|]
    {
      if count > limitNumber {
        return None;
      }
      r := starts.Next();
      if r.Some? {
        count := count + 1;
        emitted := emitted + [r.value];
        assert starts.items[..starts.pos] == starts.items[..starts.pos - 1] + [r.value];
      }
    }
  }

  /** `CapitalizePipe`: each start upper-cased. */
  class CapitalizePipe {
    const starts: Cursor<string>

    constructor (items: seq<string>)
      ensures starts.Valid() && fresh(starts) && starts.items == items
    {
      starts := new Cursor(items);
    }

    method ProcessNextStart() returns (r: Option<string>)
      requires starts.Valid()
      modifies starts
      ensures starts.Valid()
      ensures old(starts.pos) < |starts.items| ==>
        r.Some? && starts.pos == old(starts.pos) + 1 && r.value == Upper(starts.items[old(starts.pos)])
      ensures old(starts.pos) == |starts.items| ==> r.None? && starts.pos == old(starts.pos)
    {
      var s := starts.Next();
      r := if s.Some? then Some(Upper(s.value)) else None;
    }
  }

  /** `LenPipe`: the length of each start. */
  class LenPipe<T> {
    const starts: Cursor<seq<T>>

    constructor (items: seq<seq<T>>)
      ensures starts.Valid() && fresh(starts) && starts.items == items
    {
      starts := new Cursor(items);
    }

    method ProcessNextStart() returns (r: Option<nat>)
      requires starts.Valid()
      modifies starts
      ensures starts.Valid()
      ensures old(starts.pos) < |starts.items| ==>
        r == Some(|starts.items[old(starts.pos)]|) && starts.pos == old(starts.pos) + 1
      ensures old(starts.pos) == |starts.items| ==> r.None? && starts.pos == old(starts.pos)
    {
      var s := starts.Next();
      r := if s.Some? then Some(|s.value|) else None;
    }
  }

  /** The part of a listing the security-marking pipe looks at. */
  datatype Listing = Listing(id: nat, title: string, securityMarking: Option<string>)

  /** The listings, in order, that the access predicate accepts for `username`. */
  function Accepted(listings: seq<Listing>, username: string,
                    hasAccess: (string, Option<string>) -> bool): seq<Listing>
  {
    if |listings| == 0 then []
    else
      var init := Accepted(listings[..|listings| - 1], username, hasAccess);
      var last := listings[|listings| - 1];
      if hasAccess(username, last.securityMarking) then init + [last] else init
  }

  /** One more listing is kept exactly when the access check accepts it. */
  lemma AcceptedStep(listings: seq<Listing>, l: Listing, username: string,
                     hasAccess: (string, Option<string>) -> bool)
    ensures Accepted(listings + [l], username, hasAccess)
            == if hasAccess(username, l.securityMarking) then Accepted(listings, username, hasAccess) + [l]
               else Accepted(listings, username, hasAccess)
  {
    assert (listings + [l])[..|listings|] == listings;
  }

  /** The pipe keeps exactly the listings the access check accepts, and no more
      of them than it was given. */
  lemma {:induction false} AcceptedMembers(listings: seq<Listing>, username: string,
                                           hasAccess: (string, Option<string>) -> bool)
    ensures var out := Accepted(listings, username, hasAccess);
            && (forall l :: l in out <==> l in listings && hasAccess(username, l.securityMarking))
            && |out| <= |listings|
  {
    if |listings| > 0 {
      var init := listings[..|listings| - 1];
      var last := listings[|listings| - 1];
      assert listings == init + [last];
      AcceptedMembers(init, username, hasAccess);
      AcceptedStep(init, last, username, hasAccess);
    }
  }

  /** `ListingPostSecurityMarkingCheckPipe`: skips starts until one passes
      the system's access-control check for the user. That access check is
      a parameter. */
  class ListingPostSecurityMarkingCheckPipe {
    const starts: Cursor<Listing>
    const username: string
    const hasAccess: (string, Option<string>) -> bool
    ghost var emitted: seq<Listing>

    ghost predicate Valid()
      reads this, starts
    {
      starts.Valid() && emitted == Accepted(starts.items[..starts.pos], username, hasAccess)
    }

    constructor (items: seq<Listing>, username: string, hasAccess: (string, Option<string>) -> bool)
      ensures Valid() && fresh(starts) && starts.items == items && emitted == []
      ensures this.username == username && this.hasAccess == hasAccess
    {
      starts := new Cursor(items);
      this.username := username;
      this.hasAccess := hasAccess;
      emitted := [];
      assert items[..0] == [];
    }

    method ProcessNextStart() returns (r: Option<Listing>)
      requires Valid()
      modifies this, starts
      ensures Valid()
      ensures r.Some? ==> emitted == old(emitted) + [r.value] && hasAccess(username, r.value.securityMarking)
      ensures r.None? ==> emitted == old(emitted) && starts.pos == |starts.items|
    {
      while true
        invariant starts.Valid() && emitted == old(emitted)
        invariant emitted == Accepted(starts.items[..starts.pos], username, hasAccess)
        decreases |starts.items| - starts.pos
      {
        var listing := starts.Next();
        if listing.None? {
          return None;
        }
        assert starts.items[..starts.pos] == starts.items[..starts.pos - 1] + [listing.value];
        AcceptedStep(starts.items[..starts.pos - 1], listing.value, username, hasAccess);
        if hasAccess(username, listing.value.securityMarking) {
          emitted := emitted + [listing.value];
          return listing;
        }
      }
    }
  }

  /** The out-vertices of the given edges. */
  function OutVertices<V, E>(edges: seq<E>, outVertex: E -> V): (vs: seq<V>)
    ensures |vs| == |edges|
    ensures forall i :: 0 <= i < |edges| ==> vs[i] == outVertex(edges[i])
  {
    seq(|edges|, i requires 0 <= i < |edges| => outVertex(edges[i]))
  }

  /** The out-vertices of every edge of every vertex, vertex by vertex. */
  function Adjacent<V, E>(vertices: seq<V>, edgesOf: V -> seq<E>, outVertex: E -> V): seq<V> {
    if |vertices| == 0 then []
    else Adjacent(vertices[..|vertices| - 1], edgesOf, outVertex)
         + OutVertices(edgesOf(vertices[|vertices| - 1]), outVertex)
  }

  /** A vertex with no edges adds nothing to the output. */
  lemma AdjacentSkipsIsolated<V, E>(vertices: seq<V>, v: V, edgesOf: V -> seq<E>, outVertex: E -> V)
    requires edgesOf(v) == []
    ensures Adjacent(vertices + [v], edgesOf, outVertex) == Adjacent(vertices, edgesOf, outVertex)
  {
    assert (vertices + [v])[..|vertices|] == vertices;
  }

  /** The out-vertices from position `i` on: the one of edge `i`, then the rest. */
  lemma OutVerticesFrom<V, E>(edges: seq<E>, i: nat, outVertex: E -> V)
    requires i < |edges|
    ensures OutVertices(edges[i..], outVertex) == [outVertex(edges[i])] + OutVertices(edges[i + 1..], outVertex)
  {
  }

  /** One more start vertex adds the out-vertices of its edges. */
  lemma AdjacentStep<V, E>(vertices: seq<V>, p: nat, edgesOf: V -> seq<E>, outVertex: E -> V)
    requires p < |vertices|
    ensures Adjacent(vertices[..p + 1], edgesOf, outVertex)
            == Adjacent(vertices[..p], edgesOf, outVertex) + OutVertices(edgesOf(vertices[p]), outVertex)
  {
    assert vertices[..p + 1][..p] == vertices[..p];
  }

  /** `VerticesVerticesPipe`: yields the out-vertex of each edge of each
      start vertex, in order. The edges of a vertex (for the pipe's
      direction and labels) come from the graph, which is a parameter. */
  class VerticesVerticesPipe<V, E> {
    const starts: Cursor<V>
    const edgesOf: V -> seq<E>
    const outVertex: E -> V
    /** `next_end`: the edges of the current start and the position in them. */
    var nextEnd: seq<E>
    var endPos: nat
    ghost var emitted: seq<V>

    ghost predicate Valid()
      reads this, starts
    {
      && starts.Valid()
      && endPos <= |nextEnd|
      && emitted + OutVertices(nextEnd[endPos..], outVertex)
         == Adjacent(starts.items[..starts.pos], edgesOf, outVertex)
    }

    constructor (items: seq<V>, edgesOf: V -> seq<E>, outVertex: E -> V)
      ensures Valid() && fresh(starts) && starts.items == items && emitted == []
      ensures this.edgesOf == edgesOf && this.outVertex == outVertex
    {
      starts := new Cursor(items);
      this.edgesOf := edgesOf;
      this.outVertex := outVertex;
      nextEnd := [];
      endPos := 0;
      emitted := [];
      assert items[..0] == [];
    }

    method ProcessNextStart() returns (r: Option<V>)
      requires Valid()
      modifies this, starts
      ensures Valid()
      ensures r.Some? ==> emitted == old(emitted) + [r.value]
      ensures r.None? ==> emitted == old(emitted) == Adjacent(starts.items, edgesOf, outVertex)
    {
      var more := Refill();
      if !more {
        return None;
      }
      var e := nextEnd[endPos];
      OutVerticesFrom(nextEnd, endPos, outVertex);
      endPos := endPos + 1;
      emitted := emitted + [outVertex(e)];
      return Some(outVertex(e));
    }

    /** The loop of `process_next_start` that replaces `next_end` with the
        edges of the next start until some edge is left or the starts run
        out. */
    method Refill() returns (more: bool)
      requires Valid()
      modifies this`nextEnd, this`endPos, starts
      ensures Valid() && emitted == old(emitted)
      ensures more <==> endPos < |nextEnd|
      ensures !more ==> emitted == Adjacent(starts.items, edgesOf, outVertex)
    {
      while endPos == |nextEnd|
        invariant Valid() && emitted == old(emitted)
        decreases |starts.items| - starts.pos
      {
        assert nextEnd[endPos..] == [];
        var current := starts.Next();
        if current.None? {
          assert starts.items[..starts.pos] == starts.items;
          return false;
        }
        AdjacentStep(starts.items, starts.pos - 1, edgesOf, outVertex);
        nextEnd := edgesOf(current.value);
        endPos := 0;
        assert nextEnd[endPos..] == nextEnd;
      }
      return true;
    }
  }

  /** A graph vertex; its properties dict is changed in place. */
  class Vertex {
    const id: nat
    const labelName: string
    var properties: map<string, Json>

    constructor (id: nat, labelName: string, properties: map<string, Json>)
      ensures this.id == id && this.labelName == labelName && this.properties == properties
    {
      this.id := id;
      this.labelName := labelName;
      this.properties := properties;
    }
  }

  /** `GraphVertexPipe` and `ElementHasPipe`: each start unchanged (the
      latter ignores its label, key, predicate and value). */
  class GraphVertexPipe {
    const starts: Cursor<Vertex>

    constructor (items: seq<Vertex>)
      ensures starts.Valid() && fresh(starts) && starts.items == items
    {
      starts := new Cursor(items);
    }

    method ProcessNextStart() returns (r: Option<Vertex>)
      requires starts.Valid()
      modifies starts
      ensures starts.Valid()
      ensures old(starts.pos) < |starts.items| ==>
        r == Some(starts.items[old(starts.pos)]) && starts.pos == old(starts.pos) + 1
      ensures old(starts.pos) == |starts.items| ==> r.None? && starts.pos == old(starts.pos)
    {
      r := starts.Next();
    }
  }

  class ElementHasPipe {
    const starts: Cursor<Vertex>

    constructor (items: seq<Vertex>, labelName: string, key: Option<string>, comparison: string, value: Json)
      ensures starts.Valid() && fresh(starts) && starts.items == items
    {
      starts := new Cursor(items);
    }

    method ProcessNextStart() returns (r: Option<Vertex>)
      requires starts.Valid()
      modifies starts
      ensures starts.Valid()
      ensures old(starts.pos) < |starts.items| ==>
        r == Some(starts.items[old(starts.pos)]) && starts.pos == old(starts.pos) + 1
      ensures old(starts.pos) == |starts.items| ==> r.None? && starts.pos == old(starts.pos)
    {
      r := starts.Next();
    }
  }

  /** `ElementIdPipe`: the id of each start. */
  class ElementIdPipe {
    const starts: Cursor<Vertex>

    constructor (items: seq<Vertex>)
      ensures starts.Valid() && fresh(starts) && starts.items == items
    {
      starts := new Cursor(items);
    }

    method ProcessNextStart() returns (r: Option<nat>)
      requires starts.Valid()
      modifies starts
      ensures starts.Valid()
      ensures old(starts.pos) < |starts.items| ==>
        r == Some(starts.items[old(starts.pos)].id) && starts.pos == old(starts.pos) + 1
      ensures old(starts.pos) == |starts.items| ==> r.None? && starts.pos == old(starts.pos)
    {
      var v := starts.Next();
      r := if v.Some? then Some(v.value.id) else None;
    }
  }

  /** `ElementPropertiesPipe`: the properties of each start; when
      `internal`, `_id` and `_label` are first written into the vertex's
      own properties. */
  class ElementPropertiesPipe {
    const starts: Cursor<Vertex>
    const internal: bool

    constructor (items: seq<Vertex>, internal: bool)
      ensures starts.Valid() && fresh(starts) && starts.items == items && this.internal == internal
    {
      starts := new Cursor(items);
      this.internal := internal;
    }

    method ProcessNextStart() returns (r: Option<map<string, Json>>)
      requires starts.Valid()
      modifies starts, set v | v in starts.items
      ensures starts.Valid()
      ensures old(starts.pos) == |starts.items| ==> r.None? && starts.pos == old(starts.pos)
      ensures old(starts.pos) < |starts.items| ==>
        var v := starts.items[old(starts.pos)];
        && starts.pos == old(starts.pos) + 1
        && r == Some(v.properties)
        && v.properties == (if internal then old(v.properties)["_id" := JInt(v.id)]["_label" := JStr(v.labelName)]
                            else old(v.properties))
      ensures forall u :: u in starts.items && (old(starts.pos) == |starts.items| || u != starts.items[old(starts.pos)])
                ==> u.properties == old(u.properties)
    {
      var current := starts.Next();
      if current.None? {
        return None;
      }
      var v := current.value;
      if internal {
        v.properties := v.properties["_id" := JInt(v.id)];
        v.properties := v.properties["_label" := JStr(v.labelName)];
      }
      return Some(v.properties);
    }
  }
}
