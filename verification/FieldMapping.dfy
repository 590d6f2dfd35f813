/** Ticket payloads: rendered values written into nested JSON objects along dot-separated paths. */
module FieldMapping {
  import opened Workflow
  import Text

  type Obj = map<string, Json>
  type Path = seq<string>

  /** The object under `key`, starting afresh when there is none. */
  function Child(obj: Obj, key: string): Obj {
    if key in obj && obj[key].JObj? then obj[key].fields else map[]
  }

  function SetPath(obj: Obj, path: Path, v: Json): Obj
    requires path != []
    decreases |path|
  {
    if |path| == 1 then obj[path[0] := v]
    else obj[path[0] := JObj(SetPath(Child(obj, path[0]), path[1..], v))]
  }

  function Get(j: Json, path: Path): Option<Json>
    decreases |path|
  {
    if path == [] then Some(j)
    else if j.JObj? && path[0] in j.fields then Get(j.fields[path[0]], path[1..])
    else None
  }

  function SegmentsOf(key: string): (path: Path)
    ensures path != []
  {
    Text.Split(key, '.')
  }

  /** Segments a dot-separated key can be made of. */
  ghost predicate DotFree(path: Path) {
    path != [] && forall i :: 0 <= i < |path| ==> '.' !in path[i]
  }

  /** A key's segments are the one path of dot-free segments whose text, joined by dots, is the key. */
  lemma SegmentsIff(key: string, path: Path)
    ensures path == SegmentsOf(key) <==> DotFree(path) && Text.Join(path, ".") == key
  {
    Text.JoinOfSplit(key, '.');
    assert forall i :: 0 <= i < |SegmentsOf(key)| ==> Text.Lacks(SegmentsOf(key)[i], '.');
    if DotFree(path) && Text.Join(path, ".") == key {
      assert forall i :: 0 <= i < |path| ==> Text.Lacks(path[i], '.');
      Text.SplitOfJoin(path, '.');
    }
  }

  /** Objects in objects along a path, with one value at the end of it. */
  function Nested(path: Path, v: Json): Obj
    requires path != []
    decreases |path|
  {
    map[path[0] := if |path| == 1 then v else JObj(Nested(path[1..], v))]
  }

  /** A write into nothing gives nested objects and nothing else. */
  lemma {:induction false} SetIntoNothing(path: Path, v: Json)
    requires path != []
    ensures SetPath(map[], path, v) == Nested(path, v)
    decreases |path|
  {
    if |path| > 1 {
      SetIntoNothing(path[1..], v);
    }
  }

  /** The object a cursor stands in, with the objects around it and the keys that led down. */
  datatype Frame = Frame(obj: Obj, key: string)

  function Plug(frames: seq<Frame>, obj: Obj): Obj {
    if frames == [] then obj
    else
      var last := frames[|frames| - 1];
      Plug(frames[..|frames| - 1], last.obj[last.key := JObj(obj)])
  }

  /** The cursor's descent: create or reset what is in the way, then write at the last segment. */
  method SetDotPath(root: Obj, key: string, value: Json) returns (result: Obj)
    ensures result == SetPath(root, SegmentsOf(key), value)
  {
    var segments := Text.Split(key, '.');
    var frames: seq<Frame> := [];
    var current := root;
    var i := 0;
    while i + 1 < |segments|
      invariant 0 <= i < |segments|
      invariant Plug(frames, SetPath(current, segments[i..], value)) == SetPath(root, segments, value)
    {
      var segment := segments[i];
      var entry := if segment in current then current[segment] else JObj(map[]);
      if !entry.JObj? {
        entry := JObj(map[]);
      }
      assert segments[i..][1..] == segments[i + 1..];
      frames := frames + [Frame(current, segment)];
      assert frames[..|frames| - 1] + [Frame(current, segment)] == frames;
      current := entry.fields;
      i := i + 1;
    }
    assert segments[i..] == [segments[i]];
    result := current[segments[i] := value];
    while frames != []
      invariant Plug(frames, result) == SetPath(root, segments, value)
      decreases |frames|
    {
      var last := frames[|frames| - 1];
      result := last.obj[last.key := JObj(result)];
      frames := frames[..|frames| - 1];
    }
  }

  predicate Prefix(p: Path, q: Path) {
    |p| <= |q| && q[..|p|] == p
  }

  /** Neither path leads through the other. */
  predicate Incomparable(p: Path, q: Path) {
    !Prefix(p, q) && !Prefix(q, p)
  }

  lemma PrefixTail(p: Path, q: Path)
    requires p != [] && q != [] && p[0] == q[0]
    ensures Prefix(p, q) <==> Prefix(p[1..], q[1..])
  {
    if Prefix(p, q) {
      assert q[1..][..|p| - 1] == q[..|p|][1..];
    }
    if Prefix(p[1..], q[1..]) {
      assert q[..|p|] == [q[0]] + q[1..][..|p| - 1];
      assert p == [p[0]] + p[1..];
    }
  }

  /** Incomparable paths with a common first segment both go on, incomparably. */
  lemma SharedHead(p: Path, q: Path)
    requires p != [] && q != [] && p[0] == q[0] && Incomparable(p, q)
    ensures |p| > 1 && |q| > 1 && Incomparable(p[1..], q[1..])
  {
    PrefixTail(p, q);
    PrefixTail(q, p);
    if |p| == 1 {
      HeadOnly(p, q);
    }
    if |q| == 1 {
      HeadOnly(q, p);
    }
  }

  lemma HeadOnly(p: Path, q: Path)
    requires |p| == 1 && q != [] && p[0] == q[0]
    ensures Prefix(p, q)
  {
    assert q[..1] == p;
  }

  /** What was written is read back. */
  lemma {:induction false} GetAfterSet(obj: Obj, p: Path, v: Json)
    requires p != []
    ensures Get(JObj(SetPath(obj, p, v)), p) == Some(v)
    decreases |p|
  {
    if |p| > 1 {
      GetAfterSet(Child(obj, p[0]), p[1..], v);
    }
  }

  /** What stands before the end of a written path is an object. */
  lemma {:induction false} GetAboveSet(obj: Obj, p: Path, v: Json, q: Path)
    requires p != [] && Prefix(q, p) && q != p
    ensures Get(JObj(SetPath(obj, p, v)), q).Some? && Get(JObj(SetPath(obj, p, v)), q).value.JObj?
    decreases |p|
  {
    if q != [] {
      assert q[0] == p[..|q|][0];
      PrefixTail(q, p);
      assert q == [q[0]] + q[1..] && p == [p[0]] + p[1..];
      GetAboveSet(Child(obj, p[0]), p[1..], v, q[1..]);
    }
  }

  lemma GetInChild(obj: Obj, key: string, q: Path)
    requires q != []
    ensures Get(JObj(Child(obj, key)), q) == Get(JObj(obj), [key] + q)
  {
    assert ([key] + q)[1..] == q;
  }

  /** Every other branch of the object reads as before. */
  lemma {:induction false} GetBesideSet(obj: Obj, p: Path, v: Json, q: Path)
    requires p != [] && Incomparable(p, q)
    ensures Get(JObj(SetPath(obj, p, v)), q) == Get(JObj(obj), q)
    decreases |p|
  {
    assert q != [] by {
      assert Prefix([], p);
    }
    if q[0] == p[0] {
      SharedHead(p, q);
      GetBesideSet(Child(obj, p[0]), p[1..], v, q[1..]);
      GetInChild(obj, p[0], q[1..]);
      assert q == [q[0]] + q[1..];
    }
  }

  /** Two writes below one key are one write of the doubly written child. */
  lemma SetTwiceBelow(obj: Obj, p: Path, v: Json, q: Path, w: Json)
    requires |p| > 1 && |q| > 1 && p[0] == q[0]
    ensures SetPath(SetPath(obj, p, v), q, w) ==
            obj[p[0] := JObj(SetPath(SetPath(Child(obj, p[0]), p[1..], v), q[1..], w))]
  {
    var inner := SetPath(Child(obj, p[0]), p[1..], v);
    assert Child(obj[p[0] := JObj(inner)], q[0]) == inner;
  }

  /** What a write puts under its first segment. */
  function Below(child: Obj, p: Path, v: Json): Json
    requires p != []
  {
    if |p| == 1 then v else JObj(SetPath(child, p[1..], v))
  }

  lemma SetAsUpdate(obj: Obj, p: Path, v: Json, child: Obj)
    requires p != [] && child == Child(obj, p[0])
    ensures SetPath(obj, p, v) == obj[p[0] := Below(child, p, v)]
  {
  }

  lemma UpdatesCommute(obj: Obj, a: string, x: Json, b: string, y: Json)
    requires a != b
    ensures obj[a := x][b := y] == obj[b := y][a := x]
    ensures Child(obj[a := x], b) == Child(obj, b)
  {
  }

  lemma SetsBesideCommute(obj: Obj, p: Path, v: Json, q: Path, w: Json)
    requires p != [] && q != [] && p[0] != q[0]
    ensures SetPath(SetPath(obj, p, v), q, w) == SetPath(SetPath(obj, q, w), p, v)
  {
    var a, b := p[0], q[0];
    var x, y := Below(Child(obj, a), p, v), Below(Child(obj, b), q, w);
    UpdatesCommute(obj, a, x, b, y);
    UpdatesCommute(obj, b, y, a, x);
    SetAsUpdate(obj, p, v, Child(obj, a));
    SetAsUpdate(obj, q, w, Child(obj, b));
    SetAsUpdate(obj[a := x], q, w, Child(obj, b));
    SetAsUpdate(obj[b := y], p, v, Child(obj, a));
  }

  /** Writes to incomparable paths commute. */
  lemma {:induction false} SetsCommute(obj: Obj, p: Path, v: Json, q: Path, w: Json)
    requires p != [] && q != [] && Incomparable(p, q)
    ensures SetPath(SetPath(obj, p, v), q, w) == SetPath(SetPath(obj, q, w), p, v)
    decreases |p|
  {
    if p[0] != q[0] {
      SetsBesideCommute(obj, p, v, q, w);
    } else {
      SharedHead(p, q);
      SetsCommute(Child(obj, p[0]), p[1..], v, q[1..], w);
      SetTwiceBelow(obj, p, v, q, w);
      SetTwiceBelow(obj, q, w, p, v);
    }
  }

  datatype Write = Write(path: Path, value: Json)

  ghost predicate Proper(writes: seq<Write>) {
    forall i :: 0 <= i < |writes| ==> writes[i].path != []
  }

  ghost predicate PairwiseApart(writes: seq<Write>) {
    forall i, j :: 0 <= i < |writes| && 0 <= j < |writes| && i != j ==> Incomparable(writes[i].path, writes[j].path)
  }

  function Apply(writes: seq<Write>): Obj
    requires Proper(writes)
  {
    if writes == [] then map[]
    else
      var last := writes[|writes| - 1];
      SetPath(Apply(writes[..|writes| - 1]), last.path, last.value)
  }

  lemma ApplyAppend(writes: seq<Write>, w: Write)
    requires Proper(writes) && w.path != []
    ensures Proper(writes + [w]) && Apply(writes + [w]) == SetPath(Apply(writes), w.path, w.value)
  {
    assert (writes + [w])[..|writes|] == writes;
  }

  /** A write may be put off past writes to incomparable paths. */
  lemma {:induction false} PutOff(before: seq<Write>, w: Write, after: seq<Write>)
    requires Proper(before + [w] + after) && Proper(before + after + [w])
    requires forall i :: 0 <= i < |after| ==> Incomparable(w.path, after[i].path)
    ensures Apply(before + [w] + after) == Apply(before + after + [w])
    decreases |after|
  {
    assert Proper(before) && w.path != [] by {
      assert forall i :: 0 <= i < |before| ==> before[i] == (before + [w] + after)[i];
      assert (before + [w] + after)[|before|] == w;
    }
    if after == [] {
      assert before + [w] + after == before + after + [w];
    } else {
      var n := |after| - 1;
      var last, sooner := after[n], after[..n];
      assert last.path != [] by {
        assert (before + [w] + after)[|before| + 1 + n] == last;
      }
      assert before + [w] + after == (before + [w] + sooner) + [last];
      assert before + after == (before + sooner) + [last];
      assert Proper(before + [w] + sooner) && Proper(before + sooner) by {
        assert forall i :: 0 <= i < |before + [w] + sooner| ==> (before + [w] + sooner)[i] == (before + [w] + after)[i];
        assert forall i :: 0 <= i < |before + sooner| ==> (before + sooner)[i] == (before + after + [w])[i];
      }
      ApplyAppend(before + sooner, w);
      ApplyAppend(before + sooner, last);
      ApplyAppend(before + [w] + sooner, last);
      ApplyAppend(before + after, w);
      PutOff(before, w, sooner);
      SetsCommute(Apply(before + sooner), w.path, w.value, last.path, last.value);
    }
  }

  /** Each of pairwise incomparable writes can be read back at the end. */
  lemma {:induction false} WritesReadBack(writes: seq<Write>, i: nat)
    requires Proper(writes) && PairwiseApart(writes) && i < |writes|
    ensures Get(JObj(Apply(writes)), writes[i].path) == Some(writes[i].value)
    decreases |writes|
  {
    var n := |writes| - 1;
    var last := writes[n];
    if i == n {
      GetAfterSet(Apply(writes[..n]), last.path, last.value);
    } else {
      WritesReadBack(writes[..n], i);
      GetBesideSet(Apply(writes[..n]), last.path, last.value, writes[i].path);
    }
  }

  /** Below the end of a written string there is nothing, and off every written path there is nothing but objects. */
  lemma {:induction false} GetBelowSet(obj: Obj, p: Path, s: string, q: Path)
    requires p != [] && Prefix(p, q) && p != q
    ensures Get(JObj(SetPath(obj, p, JStr(s))), q).None?
    decreases |p|
  {
    assert p[0] == q[..|p|][0] == q[0];
    if |p| == 1 {
      assert q[1..] != [];
    } else {
      PrefixTail(p, q);
      assert p == [p[0]] + p[1..] && q == [q[0]] + q[1..];
      GetBelowSet(Child(obj, p[0]), p[1..], s, q[1..]);
    }
  }

  ghost predicate Texts(writes: seq<Write>) {
    forall i :: 0 <= i < |writes| ==> writes[i].value.JStr?
  }

  /** The payload's leaves: where something other than an object stands. */
  ghost predicate IsLeaf(obj: Obj, q: Path) {
    var got := Get(JObj(obj), q);
    got.Some? && !got.value.JObj?
  }

  ghost predicate Written(writes: seq<Write>, q: Path) {
    exists i :: 0 <= i < |writes| && writes[i].path == q
  }

  lemma WrittenAppend(writes: seq<Write>, w: Write, q: Path)
    ensures Written(writes + [w], q) <==> Written(writes, q) || q == w.path
  {
    var all := writes + [w];
    assert all[|writes|] == w;
    if i :| 0 <= i < |writes| && writes[i].path == q {
      assert all[i].path == q;
    }
  }

  /** One more write adds its own path to the leaves and takes none away, if nothing is written above or below it. */
  lemma LeafAfterSet(obj: Obj, w: Write, q: Path)
    requires w.path != [] && w.value.JStr?
    requires Prefix(q, w.path) || Prefix(w.path, q) ==> q == w.path || !IsLeaf(obj, q)
    ensures IsLeaf(SetPath(obj, w.path, w.value), q) <==> q == w.path || IsLeaf(obj, q)
  {
    if q == w.path {
      GetAfterSet(obj, w.path, w.value);
    } else if Prefix(q, w.path) {
      GetAboveSet(obj, w.path, w.value, q);
    } else if Prefix(w.path, q) {
      GetBelowSet(obj, w.path, w.value.s, q);
    } else {
      GetBesideSet(obj, w.path, w.value, q);
    }
  }

  /** The leaves of the payload are exactly the written paths. */
  lemma {:induction false} LeavesAreWrites(writes: seq<Write>, q: Path)
    requires Proper(writes) && PairwiseApart(writes) && Texts(writes)
    ensures IsLeaf(Apply(writes), q) <==> Written(writes, q)
    decreases |writes|
  {
    if writes == [] {
      assert q != [] ==> Get(JObj(map[]), q).None?;
    } else {
      var n := |writes| - 1;
      var sooner, last := writes[..n], writes[n];
      assert writes == sooner + [last];
      LeavesAreWrites(sooner, q);
      WrittenAppend(sooner, last, q);
      if i :| 0 <= i < |sooner| && sooner[i].path == q {
        assert Incomparable(writes[i].path, writes[n].path);
      }
      LeafAfterSet(Apply(sooner), last, q);
    }
  }
}

/** Rendering a whole field mapping. */
module FieldMappingRender {
  import opened Workflow
  import Text
  import opened FieldMapping

  datatype Rendered = Payload(obj: Obj) | TemplateError(field: string)

  /** An order in which the mapping's entries may come out of the hash map. */
  ghost predicate IsOrder(mapping: map<string, string>, order: seq<string>) {
    && (forall k :: k in order <==> k in mapping)
    && (forall i, j :: 0 <= i < j < |order| ==> order[i] != order[j])
  }

  /** The writes the loop makes; `tera` renders a template or fails. */
  function Writes(mapping: map<string, string>, tera: string -> Option<string>, order: seq<string>): (r: seq<Write>)
    requires forall k :: k in order ==> k in mapping && tera(mapping[k]).Some?
    ensures |r| == |order| && Proper(r) && Texts(r)
    ensures forall i :: 0 <= i < |order| ==> r[i] == Write(SegmentsOf(order[i]), JStr(tera(mapping[order[i]]).value))
  {
    if order == [] then []
    else
      var k := order[|order| - 1];
      Writes(mapping, tera, order[..|order| - 1]) + [Write(SegmentsOf(k), JStr(tera(mapping[k]).value))]
  }

  ghost predicate AllRender(mapping: map<string, string>, tera: string -> Option<string>) {
    forall k :: k in mapping ==> tera(mapping[k]).Some?
  }

  method Render(mapping: map<string, string>, tera: string -> Option<string>, order: seq<string>) returns (r: Rendered)
    requires IsOrder(mapping, order)
    ensures r.Payload? <==> AllRender(mapping, tera)
    ensures r.Payload? ==> r.obj == Apply(Writes(mapping, tera, order))
    ensures r.TemplateError? ==> exists i :: FirstFailure(mapping, tera, order, i) && r.field == order[i]
  {
    var root: Obj := map[];
    for i := 0 to |order|
      invariant Rendering(mapping, tera, order[..i])
      invariant root == Apply(Writes(mapping, tera, order[..i]))
    {
      assert order[i] in order;
      var rendered := tera(mapping[order[i]]);
      if rendered.None? {
        assert FirstFailure(mapping, tera, order, i);
        return TemplateError(order[i]);
      }
      WritesGrow(mapping, tera, order, i);
      root := SetDotPath(root, order[i], JStr(rendered.value));
    }
    assert order[..|order|] == order;
    RendersAll(mapping, tera, order);
    r := Payload(root);
  }

  /** The first key of the order whose template does not render. */
  ghost predicate FirstFailure(mapping: map<string, string>, tera: string -> Option<string>, order: seq<string>, i: int) {
    0 <= i < |order| && order[i] in mapping && tera(mapping[order[i]]).None? && Rendering(mapping, tera, order[..i])
  }

  lemma RendersAll(mapping: map<string, string>, tera: string -> Option<string>, order: seq<string>)
    requires IsOrder(mapping, order) && Rendering(mapping, tera, order)
    ensures AllRender(mapping, tera)
  {
  }

  ghost predicate Rendering(mapping: map<string, string>, tera: string -> Option<string>, order: seq<string>) {
    forall k :: k in order ==> k in mapping && tera(mapping[k]).Some?
  }

  /** One more key of the order is one more write. */
  lemma WritesGrow(mapping: map<string, string>, tera: string -> Option<string>, order: seq<string>, i: nat)
    requires i < |order| && Rendering(mapping, tera, order[..i]) && order[i] in mapping && tera(mapping[order[i]]).Some?
    ensures Rendering(mapping, tera, order[..i + 1])
    ensures Apply(Writes(mapping, tera, order[..i + 1]))
         == SetPath(Apply(Writes(mapping, tera, order[..i])), SegmentsOf(order[i]), JStr(tera(mapping[order[i]]).value))
  {
    assert order[..i + 1] == order[..i] + [order[i]];
    assert order[..i + 1][..i] == order[..i];
    var w := Write(SegmentsOf(order[i]), JStr(tera(mapping[order[i]]).value));
    var earlier := Writes(mapping, tera, order[..i]);
    assert Writes(mapping, tera, order[..i + 1]) == earlier + [w];
    ApplyAppend(earlier, w);
  }

  /** No key's path is a proper prefix of another's. */
  ghost predicate PrefixFree(mapping: map<string, string>) {
    forall a, b :: a in mapping && b in mapping && a != b ==> !Prefix(SegmentsOf(a), SegmentsOf(b))
  }

  lemma WritesApart(mapping: map<string, string>, tera: string -> Option<string>, order: seq<string>)
    requires IsOrder(mapping, order) && AllRender(mapping, tera) && PrefixFree(mapping)
    ensures PairwiseApart(Writes(mapping, tera, order))
  {
    var w := Writes(mapping, tera, order);
    forall i, j | 0 <= i < |w| && 0 <= j < |w| && i != j ensures Incomparable(w[i].path, w[j].path) {
      assert order[i] in mapping && order[j] in mapping && order[i] != order[j];
    }
  }

  /** The write of one key. */
  function WriteOf(mapping: map<string, string>, tera: string -> Option<string>, k: string): Write
    requires k in mapping && tera(mapping[k]).Some?
  {
    Write(SegmentsOf(k), JStr(tera(mapping[k]).value))
  }

  ghost predicate NoRepeats(a: seq<string>) {
    forall i, j :: 0 <= i < j < |a| ==> a[i] != a[j]
  }

  ghost predicate SameKeys(a: seq<string>, b: seq<string>) {
    forall k :: k in a <==> k in b
  }

  ghost predicate Within(a: seq<string>, mapping: map<string, string>) {
    forall k :: k in a ==> k in mapping
  }

  lemma WritesJoin(mapping: map<string, string>, tera: string -> Option<string>, a: seq<string>, b: seq<string>)
    requires forall k :: k in a + b ==> k in mapping && tera(mapping[k]).Some?
    ensures (forall k :: k in a ==> k in a + b) && (forall k :: k in b ==> k in a + b)
    ensures Writes(mapping, tera, a + b) == Writes(mapping, tera, a) + Writes(mapping, tera, b)
  {
    assert forall i :: 0 <= i < |b| ==> (a + b)[|a| + i] == b[i];
    assert forall i :: 0 <= i < |a| ==> (a + b)[i] == a[i];
  }

  lemma WritesAround(mapping: map<string, string>, tera: string -> Option<string>, before: seq<string>, key: string, after: seq<string>)
    requires AllRender(mapping, tera) && Within(before + [key] + after, mapping)
    ensures key in mapping && Within(before, mapping) && Within(after, mapping) && Within(before + after, mapping)
    ensures Writes(mapping, tera, before + after) == Writes(mapping, tera, before) + Writes(mapping, tera, after)
    ensures Writes(mapping, tera, before + [key] + after)
         == Writes(mapping, tera, before) + [WriteOf(mapping, tera, key)] + Writes(mapping, tera, after)
  {
    assert key in before + [key] + after;
    assert forall k :: k in before + after ==> k in before + [key] + after;
    WritesJoin(mapping, tera, before, after);
    WritesJoin(mapping, tera, before + [key], after);
    WritesJoin(mapping, tera, before, [key]);
    assert Writes(mapping, tera, [key]) == [WriteOf(mapping, tera, key)];
  }

  /** An order with one key put last. */
  lemma KeyLast(mapping: map<string, string>, tera: string -> Option<string>, before: seq<string>, key: string, after: seq<string>)
    requires AllRender(mapping, tera) && PrefixFree(mapping) && Within(before + [key] + after, mapping) && key !in after
    ensures key in mapping && Within(before + after, mapping)
    ensures Apply(Writes(mapping, tera, before + [key] + after)) ==
            SetPath(Apply(Writes(mapping, tera, before + after)), SegmentsOf(key), JStr(tera(mapping[key]).value))
  {
    WritesAround(mapping, tera, before, key, after);
    var w, wb, wa := WriteOf(mapping, tera, key), Writes(mapping, tera, before), Writes(mapping, tera, after);
    forall i | 0 <= i < |wa| ensures Incomparable(w.path, wa[i].path) {
      assert after[i] in after && after[i] != key;
    }
    ApplyAppend(wb + wa, w);
    PutOff(wb, w, wa);
  }

  /** The payload does not depend on the hash map's iteration order. */
  lemma {:induction false} OrderFree(mapping: map<string, string>, tera: string -> Option<string>, a: seq<string>, b: seq<string>)
    requires AllRender(mapping, tera) && PrefixFree(mapping)
    requires SameKeys(a, b) && Within(a, mapping) && NoRepeats(a) && NoRepeats(b)
    ensures Within(b, mapping) && Apply(Writes(mapping, tera, a)) == Apply(Writes(mapping, tera, b))
    decreases |a|
  {
    if a == [] {
      if b != [] {
        HasKey(b);
      }
    } else {
      var n := |a| - 1;
      var key := a[n];
      assert key in b;
      var i :| 0 <= i < |b| && b[i] == key;
      OrderFreeStep(mapping, tera, a, a[..n], key, b, b[..i], b[i + 1..]);
    }
  }

  lemma HasKey(b: seq<string>)
    requires b != []
    ensures exists k :: k in b
  {
    assert b[0] in b;
  }

  lemma {:induction false} OrderFreeStep(mapping: map<string, string>, tera: string -> Option<string>, a: seq<string>, front: seq<string>, key: string, b: seq<string>, before: seq<string>, after: seq<string>)
    requires AllRender(mapping, tera) && PrefixFree(mapping)
    requires SameKeys(a, b) && Within(a, mapping) && NoRepeats(a) && NoRepeats(b)
    requires a == front + [key] && b == before + [key] + after
    ensures Within(b, mapping) && Apply(Writes(mapping, tera, a)) == Apply(Writes(mapping, tera, b))
    decreases |a|, 0
  {
    SameWithout(front, key, before, after);
    assert Within(front, mapping) by {
      assert forall k :: k in front ==> k in a;
    }
    OrderFree(mapping, tera, front, before + after);
    KeyLast(mapping, tera, before, key, after);
    KeyLast(mapping, tera, front, key, []);
    assert front + [] == front && a == front + [key] + [];
  }

  lemma RenderOrderFree(mapping: map<string, string>, tera: string -> Option<string>, a: seq<string>, b: seq<string>)
    requires IsOrder(mapping, a) && IsOrder(mapping, b) && AllRender(mapping, tera) && PrefixFree(mapping)
    ensures Apply(Writes(mapping, tera, a)) == Apply(Writes(mapping, tera, b))
  {
    OrderFree(mapping, tera, a, b);
  }

  /** Taking one key out of two listings of the same keys leaves the same keys, still without repeats. */
  lemma SameWithout(front: seq<string>, key: string, before: seq<string>, after: seq<string>)
    requires SameKeys(front + [key], before + [key] + after) && NoRepeats(front + [key]) && NoRepeats(before + [key] + after)
    ensures key !in front && key !in before && key !in after
    ensures SameKeys(front, before + after) && NoRepeats(front) && NoRepeats(before + after)
  {
    var f, b := front + [key], before + [key] + after;
    assert f[|front|] == key && b[|before|] == key;
    assert forall i :: 0 <= i < |front| ==> f[i] == front[i];
    assert forall i :: 0 <= i < |before| ==> b[i] == before[i];
    assert forall i :: 0 <= i < |after| ==> b[|before| + 1 + i] == after[i];
    forall k ensures k in front <==> k in before + after {
      assert k in f <==> k in front || k == key;
      assert k in b <==> k in before || k in after || k == key;
    }
    forall i, j | 0 <= i < j < |before + after| ensures (before + after)[i] != (before + after)[j] {
      var i0, j0 := if i < |before| then i else i + 1, if j < |before| then j else j + 1;
      assert b[i0] == (before + after)[i] && b[j0] == (before + after)[j];
    }
  }

  /** Every key reads back its rendered value, and nothing else is a leaf of the payload. */
  lemma RenderReadsBack(mapping: map<string, string>, tera: string -> Option<string>, order: seq<string>)
    requires IsOrder(mapping, order) && AllRender(mapping, tera) && PrefixFree(mapping)
    ensures var obj := Apply(Writes(mapping, tera, order));
            && (forall k :: k in mapping ==> Get(JObj(obj), SegmentsOf(k)) == Some(JStr(tera(mapping[k]).value)))
            && (forall q: Path :: IsLeaf(obj, q) <==> exists k :: k in mapping && SegmentsOf(k) == q)
  {
    var w := Writes(mapping, tera, order);
    WritesApart(mapping, tera, order);
    forall k | k in mapping ensures Get(JObj(Apply(w)), SegmentsOf(k)) == Some(JStr(tera(mapping[k]).value)) {
      var i :| 0 <= i < |order| && order[i] == k;
      WritesReadBack(w, i);
    }
    forall q: Path ensures IsLeaf(Apply(w), q) <==> exists k :: k in mapping && SegmentsOf(k) == q {
      LeavesAreWrites(w, q);
      if Written(w, q) {
        var i :| 0 <= i < |w| && w[i].path == q;
        assert order[i] in mapping && SegmentsOf(order[i]) == q;
      }
      if k :| k in mapping && SegmentsOf(k) == q {
        var i :| 0 <= i < |order| && order[i] == k;
        assert w[i].path == q;
      }
    }
  }

  /** The same in the keys' own terms: values stand at the ends of dot-separated paths, and only there. */
  lemma RenderNestsAtDots(mapping: map<string, string>, tera: string -> Option<string>, order: seq<string>)
    requires IsOrder(mapping, order) && AllRender(mapping, tera) && PrefixFree(mapping)
    ensures var payload := JObj(Apply(Writes(mapping, tera, order)));
            && (forall p: Path :: DotFree(p) && Text.Join(p, ".") in mapping ==>
                  Get(payload, p) == Some(JStr(tera(mapping[Text.Join(p, ".")]).value)))
            && (forall p: Path :: IsLeaf(payload.fields, p) ==> DotFree(p) && Text.Join(p, ".") in mapping)
  {
    RenderReadsBack(mapping, tera, order);
    forall p: Path | DotFree(p) && Text.Join(p, ".") in mapping ensures SegmentsOf(Text.Join(p, ".")) == p {
      SegmentsIff(Text.Join(p, "."), p);
    }
    forall p: Path | IsLeaf(Apply(Writes(mapping, tera, order)), p) ensures DotFree(p) && Text.Join(p, ".") in mapping {
      var k :| k in mapping && SegmentsOf(k) == p;
      SegmentsIff(k, p);
    }
  }

  /** A single key: nested objects along its segments, the rendered text at the end. */
  lemma OneKeyNests(path: Path, template: string, tera: string -> Option<string>)
    requires DotFree(path) && tera(template).Some?
    ensures Apply(Writes(map[Text.Join(path, ".") := template], tera, [Text.Join(path, ".")]))
         == Nested(path, JStr(tera(template).value))
  {
    var key := Text.Join(path, ".");
    var mapping := map[key := template];
    SegmentsIff(key, path);
    var w := Writes(mapping, tera, [key]);
    assert w == [Write(path, JStr(tera(template).value))] && w[..0] == [];
    SetIntoNothing(path, JStr(tera(template).value));
  }

  /**
   * Without prefix-freeness the order shows: with `a`'s path leading to `b`'s, writing `a` last leaves a string where
   * writing `b` last leaves an object.
   */
  lemma PrefixMakesOrderShow(mapping: map<string, string>, tera: string -> Option<string>, a: string, b: string, last_a: seq<string>, last_b: seq<string>)
    requires AllRender(mapping, tera) && IsOrder(mapping, last_a) && IsOrder(mapping, last_b)
    requires a in mapping && b in mapping && a != b && Prefix(SegmentsOf(a), SegmentsOf(b))
    requires last_a != [] && last_a[|last_a| - 1] == a && last_b != [] && last_b[|last_b| - 1] == b
    ensures Apply(Writes(mapping, tera, last_a)) != Apply(Writes(mapping, tera, last_b))
  {
    var wa, wb := Writes(mapping, tera, last_a), Writes(mapping, tera, last_b);
    var p, q := SegmentsOf(a), SegmentsOf(b);
    if p == q {
      Text.SplitInjective(a, b, '.');
    }
    GetAfterSet(Apply(wa[..|wa| - 1]), p, wa[|wa| - 1].value);
    GetAboveSet(Apply(wb[..|wb| - 1]), q, wb[|wb| - 1].value, p);
  }

  lemma {:induction false} ListKeys(keys: set<string>) returns (order: seq<string>)
    ensures NoRepeats(order) && forall k :: k in order <==> k in keys
    decreases |keys|
  {
    order := [];
    if keys != {} {
      var k :| k in keys;
      order := ListKeys(keys - {k});
      order := order + [k];
    }
  }

  lemma OrderEndingIn(mapping: map<string, string>, key: string) returns (order: seq<string>)
    requires key in mapping
    ensures IsOrder(mapping, order) && order != [] && order[|order| - 1] == key
  {
    order := ListKeys(mapping.Keys - {key});
    order := order + [key];
  }

  ghost predicate OnePayload(mapping: map<string, string>, tera: string -> Option<string>)
    requires AllRender(mapping, tera)
  {
    forall a: seq<string>, b: seq<string> :: IsOrder(mapping, a) && IsOrder(mapping, b) ==>
      Apply(Writes(mapping, tera, a)) == Apply(Writes(mapping, tera, b))
  }

  /** Every iteration order gives the same payload exactly when no key's path leads to another's. */
  lemma OnePayloadIffPrefixFree(mapping: map<string, string>, tera: string -> Option<string>)
    requires AllRender(mapping, tera)
    ensures OnePayload(mapping, tera) <==> PrefixFree(mapping)
  {
    if PrefixFree(mapping) {
      forall a: seq<string>, b: seq<string> | IsOrder(mapping, a) && IsOrder(mapping, b)
        ensures Apply(Writes(mapping, tera, a)) == Apply(Writes(mapping, tera, b))
      {
        RenderOrderFree(mapping, tera, a, b);
      }
    } else {
      var a, b :| a in mapping && b in mapping && a != b && Prefix(SegmentsOf(a), SegmentsOf(b));
      var last_a := OrderEndingIn(mapping, a);
      var last_b := OrderEndingIn(mapping, b);
      PrefixMakesOrderShow(mapping, tera, a, b, last_a, last_b);
    }
  }
}
