/** The walk that refuses credential-like keys, over any finite graph of objects with sharing and cycles. */
module SecretWalk {
  type Id = nat

  datatype Key = Text(name: string) | NotText

  /** A plain value, or a reference to an object by its identity. */
  datatype Value = Plain | Ref(id: Id)

  datatype Node = Dict(entries: seq<(Key, Value)>) | List(items: seq<Value>)

  type Graph = map<Id, Node>

  function Children(node: Node): seq<Value> {
    match node
    case Dict(entries) => seq(|entries|, i requires 0 <= i < |entries| => entries[i].1)
    case List(items) => items
  }

  ghost predicate Closed(graph: Graph) {
    forall n, v | n in graph && v in Children(graph[n]) && v.Ref? :: v.id in graph
  }

  ghost predicate Known(graph: Graph, v: Value) {
    v.Ref? ==> v.id in graph
  }

  /** Letters and digits in lower case, for the plain alphabet. */
  function FoldKey(name: string): string {
    if name == "" then ""
    else
      var c := name[0];
      var rest := FoldKey(name[1..]);
      if 'A' <= c <= 'Z' then [(c as int - 'A' as int + 'a' as int) as char] + rest
      else if 'a' <= c <= 'z' || '0' <= c <= '9' then [c] + rest
      else rest
  }

  const SECRET_KEYS := {
    "apikey", "xapikey", "apitoken", "accesstoken", "refreshtoken", "idtoken",
    "authorization", "proxyauthorization", "credentials", "password", "passwd",
    "secret", "clientsecret", "apisecret", "secretkey", "privatekey", "token",
    "sessiontoken", "bearertoken", "cookie", "setcookie"}

  predicate KeyOk(key: Key) {
    key.Text? && FoldKey(key.name) !in SECRET_KEYS
  }

  lemma {:induction false} FoldJoins(name: string, more: string)
    ensures FoldKey(name + more) == FoldKey(name) + FoldKey(more)
  {
    if name == "" {
      assert name + more == more;
    } else {
      FoldJoins(name[1..], more);
      assert (name + more)[1..] == name[1..] + more;
    }
  }

  predicate Bland(c: char) {
    'a' <= c <= 'z' || '0' <= c <= '9'
  }

  lemma {:induction false} BlandFolds(name: string)
    requires forall c <- name :: Bland(c)
    ensures FoldKey(name) == name
  {
    if name != "" {
      assert name == [name[0]] + name[1..] && Bland(name[0]);
      assert forall c <- name[1..] :: c in name;
      BlandFolds(name[1..]);
    }
  }

  lemma FoldOne(c: char)
    ensures FoldKey([c]) == if 'A' <= c <= 'Z' then [c - 'A' + 'a'] else if Bland(c) then [c] else ""
  {
    assert [c][1..] == "";
    assert FoldKey("") == "";
  }

  lemma FoldAround(before: string, c: char, after: string)
    ensures FoldKey(before + [c] + after) == FoldKey(before) + FoldKey([c]) + FoldKey(after)
  {
    FoldJoins(before + [c], after);
    FoldJoins(before, [c]);
  }

  /** The case of a letter and any other character anywhere in a key make no difference. */
  lemma FoldIgnores(before: string, c: char, after: string)
    ensures 'A' <= c <= 'Z' ==> FoldKey(before + [c] + after) == FoldKey(before + [c - 'A' + 'a'] + after)
    ensures !Bland(c) && !('A' <= c <= 'Z') ==> FoldKey(before + [c] + after) == FoldKey(before + after)
  {
    hide FoldKey;
    FoldAround(before, c, after);
    FoldOne(c);
    FoldJoins(before, after);
    if 'A' <= c <= 'Z' {
      FoldAround(before, c - 'A' + 'a', after);
      FoldOne(c - 'A' + 'a');
    }
  }

  /**
   * A key is refused exactly when it is not text or its letters and digits spell a name on the list: one that is in small
   * letters and digits counts as it is, and the case of a letter or another character anywhere makes no difference.
   */
  lemma KeysMeetTheirNames(before: string, c: char, after: string)
    ensures (forall d <- before :: Bland(d)) ==> (KeyOk(Text(before)) <==> before !in SECRET_KEYS)
    ensures 'A' <= c <= 'Z' ==>
              (KeyOk(Text(before + [c] + after)) <==> KeyOk(Text(before + [c - 'A' + 'a'] + after)))
    ensures !Bland(c) && !('A' <= c <= 'Z') ==> (KeyOk(Text(before + [c] + after)) <==> KeyOk(Text(before + after)))
    ensures !KeyOk(NotText)
  {
    hide FoldKey, Bland;
    if forall d <- before :: Bland(d) {
      BlandFolds(before);
    }
    FoldIgnores(before, c, after);
  }

  predicate NodeOk(node: Node) {
    node.Dict? ==> forall i | 0 <= i < |node.entries| :: KeyOk(node.entries[i].0)
  }

  // ----- What should be accepted -----

  /** A way down the graph: each value is a child of the one before. */
  ghost predicate Way(graph: Graph, v: Value, path: seq<Value>) {
    && path != [] && path[0] == v
    && forall i | 0 <= i < |path| - 1 :: Below(graph, path[i], path[i + 1])
  }

  ghost predicate Below(graph: Graph, v: Value, child: Value) {
    v.Ref? && v.id in graph && child in Children(graph[v.id])
  }

  /** No object of the way is already above it or occurs on it twice, every key on it is fit, and it is not too deep. */
  ghost predicate WayOk(graph: Graph, above: set<Id>, room: int, path: seq<Value>) {
    && |path| <= room
    && (forall i | 0 <= i < |path| && path[i].Ref? :: path[i].id !in above && (path[i].id in graph ==> NodeOk(graph[path[i].id])))
    && (forall i, j | 0 <= i < j < |path| && path[i].Ref? && path[j].Ref? :: path[i].id != path[j].id)
  }

  ghost predicate Fit(graph: Graph, above: set<Id>, room: int, v: Value) {
    forall path: seq<Value> | Way(graph, v, path) :: WayOk(graph, above, room, path)
  }

  lemma WayDown(graph: Graph, v: Value, child: Value, path: seq<Value>)
    requires Below(graph, v, child) && Way(graph, child, path)
    ensures Way(graph, v, [v] + path)
  {
    var longer := [v] + path;
    forall i | 0 <= i < |longer| - 1
      ensures Below(graph, longer[i], longer[i + 1])
    {
      if i > 0 {
        assert longer[i] == path[i - 1] && longer[i + 1] == path[i];
      }
    }
  }

  lemma WayTail(graph: Graph, v: Value, path: seq<Value>)
    requires Way(graph, v, path) && |path| > 1
    ensures Below(graph, v, path[1]) && Way(graph, path[1], path[1..])
  {
    var tail := path[1..];
    assert Below(graph, path[0], path[0 + 1]);
    forall i | 0 <= i < |tail| - 1
      ensures Below(graph, tail[i], tail[i + 1])
    {
      assert tail[i] == path[i + 1] && tail[i + 1] == path[i + 1 + 1];
    }
  }

  lemma OkTail(graph: Graph, above: set<Id>, room: int, n: Id, path: seq<Value>)
    requires WayOk(graph, above, room, [Ref(n)] + path)
    ensures WayOk(graph, above + {n}, room - 1, path)
  {
    var longer := [Ref(n)] + path;
    assert longer[0] == Ref(n);
    forall i | 0 <= i < |path| && path[i].Ref?
      ensures path[i].id !in above + {n} && (path[i].id in graph ==> NodeOk(graph[path[i].id]))
    {
      assert longer[i + 1] == path[i];
    }
    forall i, j | 0 <= i < j < |path| && path[i].Ref? && path[j].Ref?
      ensures path[i].id != path[j].id
    {
      assert longer[i + 1] == path[i] && longer[j + 1] == path[j];
    }
  }

  lemma OkLonger(graph: Graph, above: set<Id>, room: int, n: Id, path: seq<Value>)
    requires WayOk(graph, above + {n}, room - 1, path)
    requires n !in above && n in graph && NodeOk(graph[n]) && room >= 1
    ensures WayOk(graph, above, room, [Ref(n)] + path)
  {
    var longer := [Ref(n)] + path;
    forall i | 0 <= i < |longer| && longer[i].Ref?
      ensures longer[i].id !in above && (longer[i].id in graph ==> NodeOk(graph[longer[i].id]))
    {
      if i > 0 {
        assert longer[i] == path[i - 1];
      }
    }
    forall i, j | 0 <= i < j < |longer| && longer[i].Ref? && longer[j].Ref?
      ensures longer[i].id != longer[j].id
    {
      assert longer[j] == path[j - 1];
      if i > 0 {
        assert longer[i] == path[i - 1];
      }
    }
  }

  lemma FitPlain(graph: Graph, above: set<Id>, room: int)
    ensures Fit(graph, above, room, Plain) <==> room >= 1
  {
    assert Way(graph, Plain, [Plain]);
    forall path: seq<Value> | Way(graph, Plain, path)
      ensures path == [Plain]
    {
      if |path| > 1 {
        WayTail(graph, Plain, path);
      }
    }
  }

  ghost predicate ChildrenFit(graph: Graph, above: set<Id>, room: int, n: Id)
    requires n in graph
  {
    forall child <- Children(graph[n]) :: Fit(graph, above + {n}, room - 1, child)
  }

  /** An object is fit when it is not above itself, its keys are fit, and its children are fit below it. */
  lemma FitRef(graph: Graph, above: set<Id>, room: int, n: Id)
    requires n in graph
    ensures Fit(graph, above, room, Ref(n))
            <==> room >= 1 && n !in above && NodeOk(graph[n]) && ChildrenFit(graph, above, room, n)
  {
    if Fit(graph, above, room, Ref(n)) {
      FitGivesChildren(graph, above, room, n);
    }
    if room >= 1 && n !in above && NodeOk(graph[n]) && ChildrenFit(graph, above, room, n) {
      ChildrenGiveFit(graph, above, room, n);
    }
  }

  lemma FitGivesChildren(graph: Graph, above: set<Id>, room: int, n: Id)
    requires n in graph && Fit(graph, above, room, Ref(n))
    ensures room >= 1 && n !in above && NodeOk(graph[n]) && ChildrenFit(graph, above, room, n)
  {
    var lone := [Ref(n)];
    assert Way(graph, Ref(n), lone) && lone[0].Ref?;
    hide WayOk, Way;
    AloneOk(graph, above, room, n);
    forall child, path | child in Children(graph[n]) && Way(graph, child, path)
      ensures WayOk(graph, above + {n}, room - 1, path)
    {
      WayDown(graph, Ref(n), child, path);
      OkTail(graph, above, room, n, path);
    }
  }

  lemma AloneOk(graph: Graph, above: set<Id>, room: int, n: Id)
    requires n in graph && WayOk(graph, above, room, [Ref(n)])
    ensures room >= 1 && n !in above && NodeOk(graph[n])
  {
    assert [Ref(n)][0] == Ref(n);
  }

  lemma ChildrenGiveFit(graph: Graph, above: set<Id>, room: int, n: Id)
    requires n in graph && room >= 1 && n !in above && NodeOk(graph[n]) && ChildrenFit(graph, above, room, n)
    ensures Fit(graph, above, room, Ref(n))
  {
    forall path: seq<Value> | Way(graph, Ref(n), path)
      ensures WayOk(graph, above, room, path)
    {
      if |path| == 1 {
        assert path == [Ref(n)];
      } else {
        WayTail(graph, Ref(n), path);
        assert path == [Ref(n)] + path[1..];
        assert Fit(graph, above + {n}, room - 1, path[1]);
        OkLonger(graph, above, room, n, path[1..]);
      }
    }
  }

  // ----- The walk -----

  class Walker {
    const graph: Graph
    var ancestors: set<Id>

    constructor (graph: Graph)
      ensures this.graph == graph && ancestors == {}
    {
      this.graph := graph;
      ancestors := {};
    }

    /**
     * One call of the walk, with `room` calls left before the recursion limit. It always ends, whatever the cycles,
     * leaves the ancestors as it found them, and accepts exactly the fit values.
     */
    method Visit(v: Value, room: int) returns (ok: bool)
      requires Closed(graph) && Known(graph, v) && ancestors <= graph.Keys
      modifies this
      ensures ancestors == old(ancestors)
      ensures ok <==> Fit(graph, old(ancestors), room, v)
      decreases graph.Keys - ancestors, 0
    {
      hide Fit;
      if v.Plain? {
        FitPlain(graph, ancestors, room);
        return room >= 1;
      }
      FitRef(graph, ancestors, room, v.id);
      if room < 1 || v.id in ancestors {
        return false;
      }
      ghost var before := ancestors;
      ancestors := ancestors + {v.id};
      ok := VisitChildren(v.id, room - 1);
      ancestors := ancestors - {v.id};
      assert ancestors == before;
    }

    /** The keys and the children of an object, one after the other. */
    method VisitChildren(n: Id, room: int) returns (ok: bool)
      requires Closed(graph) && n in graph && n in ancestors && ancestors <= graph.Keys
      modifies this
      ensures ancestors == old(ancestors)
      ensures ok <==> NodeOk(graph[n]) && forall child <- Children(graph[n]) :: Fit(graph, old(ancestors), room, child)
      decreases graph.Keys - ancestors, 1
    {
      hide Fit, KeyOk;
      var node := graph[n];
      var children := Children(node);
      for i := 0 to |children|
        invariant ancestors == old(ancestors)
        invariant node.Dict? ==> forall k | 0 <= k < i :: KeyOk(node.entries[k].0)
        invariant forall k | 0 <= k < i :: Fit(graph, old(ancestors), room, children[k])
      {
        if node.Dict? && !KeyOk(node.entries[i].0) {
          return false;
        }
        assert children[i] in children;
        var fit := Visit(children[i], room);
        if !fit {
          return false;
        }
      }
      return true;
    }
  }

  // ----- What acceptance means -----

  ghost predicate Reaches(graph: Graph, v: Value, n: Id) {
    exists path :: Way(graph, v, path) && path[|path| - 1] == Ref(n)
  }

  /** A way that comes back to an object it has passed. */
  ghost predicate ReachesCycle(graph: Graph, v: Value) {
    exists path: seq<Value>, i, j :: Way(graph, v, path) && 0 <= i < j < |path| && path[i].Ref? && path[j] == path[i]
  }

  ghost predicate ReachesBadKey(graph: Graph, v: Value) {
    exists n :: n in graph && Reaches(graph, v, n) && !NodeOk(graph[n])
  }

  ghost predicate TooDeep(graph: Graph, v: Value, limit: int) {
    exists path :: Way(graph, v, path) && |path| > limit
  }

  lemma WayPrefix(graph: Graph, v: Value, path: seq<Value>, i: nat)
    requires Way(graph, v, path) && i < |path|
    ensures Way(graph, v, path[..i + 1]) && path[..i + 1][|path[..i + 1]| - 1] == path[i]
  {
    var front := path[..i + 1];
    forall k | 0 <= k < |front| - 1
      ensures Below(graph, front[k], front[k + 1])
    {
      assert front[k] == path[k] && front[k + 1] == path[k + 1];
    }
  }

  /**
   * Starting from nothing, the walk accepts exactly the values from which no cycle, no key that is not text and no
   * credential-like key can be reached, and no way is deeper than the recursion limit.
   */
  lemma AcceptsIff(graph: Graph, v: Value, limit: int)
    requires Closed(graph) && Known(graph, v)
    ensures Fit(graph, {}, limit, v)
            <==> !ReachesCycle(graph, v) && !ReachesBadKey(graph, v) && !TooDeep(graph, v, limit)
  {
    if Fit(graph, {}, limit, v) {
      FitIsClean(graph, v, limit);
    }
    if !ReachesCycle(graph, v) && !ReachesBadKey(graph, v) && !TooDeep(graph, v, limit) {
      CleanIsFit(graph, v, limit);
    }
  }

  lemma FitIsClean(graph: Graph, v: Value, limit: int)
    requires Fit(graph, {}, limit, v)
    ensures !ReachesCycle(graph, v) && !ReachesBadKey(graph, v) && !TooDeep(graph, v, limit)
  {
    hide Below, NodeOk;
    forall path: seq<Value> | Way(graph, v, path)
      ensures |path| <= limit
      ensures forall i, j | 0 <= i < j < |path| && path[i].Ref? :: path[j] != path[i]
    {
      assert WayOk(graph, {}, limit, path);
    }
    forall n | n in graph && Reaches(graph, v, n)
      ensures NodeOk(graph[n])
    {
      var path :| Way(graph, v, path) && path[|path| - 1] == Ref(n);
      assert WayOk(graph, {}, limit, path);
    }
  }

  lemma CleanIsFit(graph: Graph, v: Value, limit: int)
    requires !ReachesCycle(graph, v) && !ReachesBadKey(graph, v) && !TooDeep(graph, v, limit)
    ensures Fit(graph, {}, limit, v)
  {
    hide NodeOk, Below;
    forall path: seq<Value> | Way(graph, v, path)
      ensures WayOk(graph, {}, limit, path)
    {
      forall i | 0 <= i < |path| && path[i].Ref?
        ensures path[i].id in graph ==> NodeOk(graph[path[i].id])
      {
        WayPrefix(graph, v, path, i);
        assert Reaches(graph, v, path[i].id);
      }
      forall i, j | 0 <= i < j < |path| && path[i].Ref? && path[j].Ref?
        ensures path[i].id != path[j].id
      {
        assert path[j] != path[i];
      }
    }
  }

  /** Without a cycle no way is longer than the number of objects, so a large enough recursion limit never refuses. */
  lemma AcyclicIsShallow(graph: Graph, v: Value, limit: int)
    requires Closed(graph) && Known(graph, v) && !ReachesCycle(graph, v) && limit > |graph|
    ensures !TooDeep(graph, v, limit)
  {
    forall path: seq<Value> | Way(graph, v, path)
      ensures |path| <= |graph| + 1
    {
      WayInGraph(graph, v, path);
      var objects := path[..|path| - 1];
      forall i, j | 0 <= i < j < |objects|
        ensures objects[i] != objects[j]
      {
        assert path[i].Ref?;
      }
      DistinctFit(objects, graph.Keys);
    }
  }

  lemma WayInGraph(graph: Graph, v: Value, path: seq<Value>)
    requires Way(graph, v, path)
    ensures forall i | 0 <= i < |path| - 1 :: path[i].Ref? && path[i].id in graph
  {
    forall i | 0 <= i < |path| - 1
      ensures path[i].Ref? && path[i].id in graph
    {
      assert Below(graph, path[i], path[i + 1]);
    }
  }

  lemma {:induction false} DistinctFit(path: seq<Value>, ids: set<Id>)
    requires forall v <- path :: v.Ref? && v.id in ids
    requires forall i, j | 0 <= i < j < |path| :: path[i] != path[j]
    ensures |path| <= |ids|
    decreases |path|
  {
    if path != [] {
      var last := path[|path| - 1];
      assert last in path;
      forall v <- path[..|path| - 1]
        ensures v.Ref? && v.id in ids - {last.id}
      {
        var i :| 0 <= i < |path| - 1 && path[i] == v;
        assert v in path && path[i] != path[|path| - 1];
      }
      DistinctFit(path[..|path| - 1], ids - {last.id});
      assert |ids - {last.id}| == |ids| - 1;
    }
  }
}
