/** Which values convert, what they convert to, and that nothing gets lost. */
module StarlarkFacts {
  import opened Base
  import opened Numbers
  import opened Starlark

  function Restrict(m: map<string, GoValue>, keys: set<string>): map<string, GoValue> {
    map k | k in m && k in keys :: m[k]
  }

  /** Round trip: what a Go value was encoded as converts back to that value, at any depth. */
  lemma {:induction false} ConvertsBack(v: GoValue, t: Tree)
    requires Encodes(v, t)
    ensures ToGo(t) == Success(v)
    decreases v, 2
  {
    match v
    case GoMap(m) =>
      EntriesConvertBack(v, t.items);
      assert Restrict(m, Keys(t.items)) == m;
    case GoList(elems) => ElemsConvertBack(v, t.elems, |elems|);
      assert t.elems[..|elems|] == t.elems && elems[..|elems|] == elems;
    case _ =>
  }

  lemma {:induction false} EntriesConvertBack(v: GoValue, items: seq<Entry>)
    requires v.GoMap? && EntriesEncode(v.m, items)
    ensures EntriesToGo(items) == Success(Restrict(v.m, Keys(items)))
    decreases v, 1, |items|
  {
    if items == [] {
      assert Restrict(v.m, Keys([])) == map[];
    } else {
      var init, last := items[..|items| - 1], items[|items| - 1];
      EntriesConvertBack(v, init);
      ConvertsBack(v.m[last.key.s], last.value);
      KeysSnoc(init, last.key.s, last.value);
      assert items == init + [Entry(TString(last.key.s), last.value)];
      assert Restrict(v.m, Keys(items)) == Restrict(v.m, Keys(init))[last.key.s := v.m[last.key.s]];
    }
  }

  lemma {:induction false} ElemsConvertBack(v: GoValue, trees: seq<Tree>, n: nat)
    requires v.GoList? && n <= |v.elems| && n <= |trees| && forall i :: 0 <= i < n ==> Encodes(v.elems[i], trees[i])
    ensures ElemsToGo(trees[..n]) == Success(v.elems[..n])
    decreases v, 1, n
  {
    if n > 0 {
      ElemsConvertBack(v, trees, n - 1);
      ConvertsBack(v.elems[n - 1], trees[n - 1]);
      assert trees[..n][..n - 1] == trees[..n - 1];
      assert v.elems[..n] == v.elems[..n - 1] + [v.elems[n - 1]];
    }
  }

  /** Both conversions one after the other, on the heap. */
  method RoundTrip(v: GoValue) returns (r: Result<GoValue, ConvertError>)
    ensures r.Success? <==> JsonShaped(v)
    ensures r.Success? ==> r.value == v
  {
    var converted, t, objs := GoValueToStarlark(v);
    if converted.Failure? {
      return Failure(converted.error);
    }
    ConvertsBack(v, t);
    r := StarlarkValueToGo(converted.value, t, objs);
  }

  /** u is the value or reachable from it through dict values and list elements. */
  predicate Reaches(t: Tree, u: Tree) {
    t == u ||
    (t.TDict? && exists i :: 0 <= i < |t.items| && ReachesFromEntry(t.items[i], u)) ||
    (t.TList? && exists i :: 0 <= i < |t.elems| && Reaches(t.elems[i], u))
  }

  predicate ReachesFromEntry(entry: Entry, u: Tree) {
    Reaches(entry.value, u)
  }

  /** String keys only, integers within int64, no other types. */
  predicate Supported(u: Tree) {
    match u
    case TInt(i) => FitsInt64(i)
    case TDict(items) => forall i :: 0 <= i < |items| ==> items[i].key.TString?
    case TOther(_) => false
    case _ => true
  }

  /** starlarkValueToGo succeeds exactly if everything reachable is supported. */
  lemma {:induction false} SucceedsIff(t: Tree)
    ensures ToGo(t).Success? <==> forall u :: Reaches(t, u) ==> Supported(u)
    decreases t, 0
  {
    match t
    case TDict(items) =>
      EntriesSucceedIff(items);
      if ToGo(t).Success? {
        forall u | Reaches(t, u) ensures Supported(u) {
          if t != u {
            var i :| 0 <= i < |items| && ReachesFromEntry(items[i], u);
          }
        }
      } else if forall i :: 0 <= i < |items| ==> items[i].key.TString? {
        var i, u :| 0 <= i < |items| && ReachesFromEntry(items[i], u) && !Supported(u);
        assert Reaches(t, u);
      } else {
        assert Reaches(t, t) && !Supported(t);
      }
    case TList(elems) =>
      ElemsSucceedIff(elems);
      if ToGo(t).Success? {
        forall u | Reaches(t, u) ensures Supported(u) {
          if t != u {
            var i :| 0 <= i < |elems| && Reaches(elems[i], u);
          }
        }
      } else {
        var i, u :| 0 <= i < |elems| && Reaches(elems[i], u) && !Supported(u);
        assert Reaches(t, u);
      }
    case _ => assert Reaches(t, t) && forall u :: Reaches(t, u) ==> u == t;
  }

  lemma {:induction false} EntriesSucceedIff(items: seq<Entry>)
    ensures EntriesToGo(items).Success? <==>
            forall i :: 0 <= i < |items| ==>
              items[i].key.TString? && forall u :: ReachesFromEntry(items[i], u) ==> Supported(u)
    decreases items, 1
  {
    if items != [] {
      var init, last := items[..|items| - 1], items[|items| - 1];
      EntriesSucceedIff(init);
      EntrySucceedsIff(last);
      assert items == init + [last];
    }
  }

  lemma EntrySucceedsIff(entry: Entry)
    ensures EntryToGo(entry).Success? <==> forall u :: ReachesFromEntry(entry, u) ==> Supported(u)
    decreases entry, 2
  {
    SucceedsIff(entry.value);
    assert forall u :: ReachesFromEntry(entry, u) <==> Reaches(entry.value, u);
  }

  lemma {:induction false} ElemsSucceedIff(elems: seq<Tree>)
    ensures ElemsToGo(elems).Success? <==>
            forall i :: 0 <= i < |elems| ==> forall u :: Reaches(elems[i], u) ==> Supported(u)
    decreases elems, 1
  {
    if elems != [] {
      var init, last := elems[..|elems| - 1], elems[|elems| - 1];
      ElemsSucceedIff(init);
      SucceedsIff(last);
      assert elems == init + [last];
    }
  }

  /** Starlark dicts have every key once. */
  predicate DistinctKeys(items: seq<Entry>) {
    forall i, j :: 0 <= i < j < |items| ==> items[i].key != items[j].key
  }

  /** No key is lost or added, and each has its own value. */
  lemma {:induction false} EntriesExact(items: seq<Entry>)
    requires EntriesToGo(items).Success? && DistinctKeys(items)
    ensures EntriesToGo(items).value.Keys == Keys(items)
    ensures forall i :: 0 <= i < |items| ==>
              items[i].key.TString? && items[i].key.s in EntriesToGo(items).value &&
              ToGo(items[i].value) == Success(EntriesToGo(items).value[items[i].key.s])
  {
    if items != [] {
      var init, last := items[..|items| - 1], items[|items| - 1];
      assert EntriesToGo(init).Success?;
      EntriesExact(init);
      assert items == init + [Entry(TString(last.key.s), last.value)];
      KeysSnoc(init, last.key.s, last.value);
      assert EntryToGo(last) == Success(EntriesToGo(items).value[last.key.s]);
      forall i | 0 <= i < |init|
        ensures items[i].key.s in EntriesToGo(items).value &&
                ToGo(items[i].value) == Success(EntriesToGo(items).value[items[i].key.s])
      {
        assert items[i] == init[i] && items[i].key != last.key;
      }
    }
  }

  /** Lists keep their length and order. */
  lemma {:induction false} ElemsExact(elems: seq<Tree>)
    requires ElemsToGo(elems).Success?
    ensures |ElemsToGo(elems).value| == |elems|
    ensures forall i :: 0 <= i < |elems| ==> ToGo(elems[i]) == Success(ElemsToGo(elems).value[i])
  {
    if elems != [] {
      ElemsExact(elems[..|elems| - 1]);
    }
  }

  datatype PathStep = Key(s: string) | Index(i: nat)

  /** The value which a path of dict keys and list indices leads to. */
  ghost function TreeAt(t: Tree, path: seq<PathStep>): Option<Tree>
    decreases |path|
  {
    if path == [] then Some(t)
    else
      match (t, path[0])
      case (TDict(items), Key(s)) =>
        if i :| 0 <= i < |items| && items[i].key == TString(s) then TreeAt(items[i].value, path[1..]) else Option.None
      case (TList(elems), Index(i)) => if i < |elems| then TreeAt(elems[i], path[1..]) else Option.None
      case _ => Option.None
  }

  function GoAt(v: GoValue, path: seq<PathStep>): Option<GoValue>
    decreases |path|
  {
    if path == [] then Some(v)
    else
      match (v, path[0])
      case (GoMap(m), Key(s)) => if s in m then GoAt(m[s], path[1..]) else Option.None
      case (GoList(elems), Index(i)) => if i < |elems| then GoAt(elems[i], path[1..]) else Option.None
      case _ => Option.None
  }

  ghost predicate DictsDistinct(t: Tree) {
    forall u :: Reaches(t, u) && u.TDict? ==> DistinctKeys(u.items)
  }

  lemma ReachesThrough(t: Tree, child: Tree, u: Tree)
    requires (t.TDict? && exists i :: 0 <= i < |t.items| && t.items[i].value == child) || (t.TList? && child in t.elems)
    requires Reaches(child, u)
    ensures Reaches(t, u)
  {
    if t.TDict? {
      var i :| 0 <= i < |t.items| && t.items[i].value == child;
      assert ReachesFromEntry(t.items[i], u);
    }
  }

  lemma ChildDistinct(t: Tree, child: Tree)
    requires DictsDistinct(t)
    requires (t.TDict? && exists i :: 0 <= i < |t.items| && t.items[i].value == child) || (t.TList? && child in t.elems)
    ensures DictsDistinct(child)
  {
    forall u | Reaches(child, u) && u.TDict? ensures DistinctKeys(u.items) {
      ReachesThrough(t, child, u);
    }
  }

  /** The item which a key leads to, if there is one, and the value it became. */
  lemma KeyLeads(t: Tree, v: GoValue, key: string, path: seq<PathStep>)
    requires t.TDict? && ToGo(t) == Success(v) && DistinctKeys(t.items) && path != [] && path[0] == Key(key)
    ensures TreeAt(t, path).Some? && key !in v.m ==> false
    ensures forall i :: 0 <= i < |t.items| && t.items[i].key == TString(key) ==>
              key in v.m && ToGo(t.items[i].value) == Success(v.m[key]) && TreeAt(t, path) == TreeAt(t.items[i].value, path[1..])
    ensures key in v.m ==> exists i :: 0 <= i < |t.items| && t.items[i].key == TString(key)
  {
    EntriesExact(t.items);
  }

  lemma {:induction false} PathsConvert(t: Tree, v: GoValue, path: seq<PathStep>)
    requires ToGo(t) == Success(v) && DictsDistinct(t)
    ensures TreeAt(t, path).Some? <==> GoAt(v, path).Some?
    ensures TreeAt(t, path).Some? ==>
              ToGo(TreeAt(t, path).value) == Success(GoAt(v, path).value) && DictsDistinct(TreeAt(t, path).value)
    decreases |path|
  {
    if path != [] {
      match (t, path[0])
      case (TDict(items), Key(s)) =>
        assert Reaches(t, t);
        KeyLeads(t, v, s, path);
        if s in v.m {
          hide TreeAt;
          var i :| 0 <= i < |items| && items[i].key == TString(s);
          ChildDistinct(t, items[i].value);
          PathsConvert(items[i].value, v.m[s], path[1..]);
        }
      case (TList(elems), Index(i)) =>
        ElemsExact(elems);
        if i < |elems| {
          ChildDistinct(t, elems[i]);
          PathsConvert(elems[i], v.elems[i], path[1..]);
        }
      case _ =>
    }
  }

  /** The same scalar, a dict with the same keys, or a list of the same length. */
  ghost predicate SameShape(t: Tree, v: GoValue) {
    match t
    case TNone => v == GoNil
    case TBool(b) => v == GoBool(b)
    case TInt(i) => v.GoInt64? && v.i == i
    case TFloat(f) => v == GoFloat(f)
    case TString(s) => v == GoString(s)
    case TDict(items) => v.GoMap? && v.m.Keys == Keys(items)
    case TList(elems) => v.GoList? && |v.elems| == |elems|
    case TOther(_) => false
  }

  lemma ConvertedHasSameShape(t: Tree, v: GoValue)
    requires ToGo(t) == Success(v) && DictsDistinct(t)
    ensures SameShape(t, v)
  {
    match t
    case TDict(items) =>
      assert Reaches(t, t);
      EntriesExact(items);
    case TList(elems) => ElemsExact(elems);
    case _ =>
  }

  /** Every path leads to the same before and after: equal scalars, dicts with equal keys, lists of equal length, or nowhere. */
  lemma SamePaths(t: Tree, v: GoValue, path: seq<PathStep>)
    requires ToGo(t) == Success(v) && DictsDistinct(t)
    ensures TreeAt(t, path).Some? <==> GoAt(v, path).Some?
    ensures TreeAt(t, path).Some? ==> SameShape(TreeAt(t, path).value, GoAt(v, path).value)
  {
    PathsConvert(t, v, path);
    if TreeAt(t, path).Some? {
      ConvertedHasSameShape(TreeAt(t, path).value, GoAt(v, path).value);
    }
  }

  /** What is wrong with a value which does not convert. */
  predicate Causes(u: Tree, error: ConvertError) {
    match error
    case NonStringKey => u.TDict? && exists i :: 0 <= i < |u.items| && !u.items[i].key.TString?
    case IntOverflow => u.TInt? && !(-0x8000_0000_0000_0000 <= u.i <= 0x7fff_ffff_ffff_ffff)
    case UnsupportedType(name) => u == TOther(name)
  }

  /** The first entry which does not convert decides the error. */
  lemma {:induction false} FirstEntryFails(items: seq<Entry>) returns (i: nat)
    requires EntriesToGo(items).Failure?
    ensures i < |items| && EntriesToGo(items[..i]).Success?
    ensures if items[i].key.TString? then EntryToGo(items[i]) == Failure(EntriesToGo(items).error)
            else EntriesToGo(items).error == NonStringKey
  {
    var init := items[..|items| - 1];
    if EntriesToGo(init).Failure? {
      i := FirstEntryFails(init);
      assert items[..i] == init[..i];
    } else {
      i := |items| - 1;
    }
  }

  lemma {:induction false} FirstElemFails(elems: seq<Tree>) returns (i: nat)
    requires ElemsToGo(elems).Failure?
    ensures i < |elems| && ElemsToGo(elems[..i]).Success? && ToGo(elems[i]) == Failure(ElemsToGo(elems).error)
  {
    var init := elems[..|elems| - 1];
    if ElemsToGo(init).Failure? {
      i := FirstElemFails(init);
      assert elems[..i] == init[..i];
    } else {
      i := |elems| - 1;
    }
  }

  /** Every error names a defect which is there. */
  lemma {:induction false} FailureHasCause(t: Tree) returns (u: Tree)
    requires ToGo(t).Failure?
    ensures Reaches(t, u) && Causes(u, ToGo(t).error)
    decreases t
  {
    u := t;
    match t
    case TDict(items) =>
      var i := FirstEntryFails(items);
      if items[i].key.TString? {
        assert items[i].value < items[i] < t;
        u := FailureHasCause(items[i].value);
        assert ReachesFromEntry(items[i], u);
      }
    case TList(elems) =>
      var i := FirstElemFails(elems);
      u := FailureHasCause(elems[i]);
    case _ =>
  }

  /** What Go can hold and JSON cannot produce. */
  predicate NotJson(v: GoValue) {
    v.GoInt64? || v.GoOther?
  }

  /** No path leads to a bad value. */
  ghost predicate AllGood(v: GoValue, bad: GoValue -> bool) {
    forall path {:trigger GoAt(v, path)} :: GoAt(v, path).Some? ==> !bad(GoAt(v, path).value)
  }

  /** One level at a time. */
  lemma AllGoodIff(v: GoValue, bad: GoValue -> bool)
    ensures AllGood(v, bad) <==>
              && !bad(v)
              && (v.GoMap? ==> forall k :: k in v.m ==> AllGood(v.m[k], bad))
              && (v.GoList? ==> forall i :: 0 <= i < |v.elems| ==> AllGood(v.elems[i], bad))
  {
    assert GoAt(v, []) == Some(v);
    match v
    case GoMap(m) => PathsOfMap(m);
    case GoList(elems) => PathsOfList(elems);
    case _ => PathsOfScalar(v);
  }

  /** JSON-shaped means that no path leads to anything else. */
  lemma {:induction false} JsonShapedIff(v: GoValue)
    ensures JsonShaped(v) <==> AllGood(v, NotJson)
    decreases v
  {
    hide AllGood;
    AllGoodIff(v, NotJson);
    match v
    case GoMap(m) =>
      forall k | k in m ensures JsonShaped(m[k]) <==> AllGood(m[k], NotJson) {
        JsonShapedIff(m[k]);
      }
    case GoList(elems) =>
      forall i | 0 <= i < |elems| ensures JsonShaped(elems[i]) <==> AllGood(elems[i], NotJson) {
        JsonShapedIff(elems[i]);
      }
    case _ =>
  }

  lemma PathsOfScalar(v: GoValue)
    requires !v.GoMap? && !v.GoList?
    ensures forall path :: GoAt(v, path).Some? ==> GoAt(v, path) == Some(v)
  {
  }

  /** A path through a map is a key and a path from there. */
  lemma PathsOfMap(m: map<string, GoValue>)
    ensures forall k, path :: k in m ==> GoAt(GoMap(m), [Key(k)] + path) == GoAt(m[k], path)
    ensures forall path: seq<PathStep> :: path != [] && GoAt(GoMap(m), path).Some? ==>
              path[0].Key? && path[0].s in m && GoAt(GoMap(m), path) == GoAt(m[path[0].s], path[1..])
  {
    forall k, path | k in m ensures GoAt(GoMap(m), [Key(k)] + path) == GoAt(m[k], path) {
      assert ([Key(k)] + path)[1..] == path;
    }
  }

  lemma PathsOfList(elems: seq<GoValue>)
    ensures forall i: nat, path :: i < |elems| ==> GoAt(GoList(elems), [Index(i)] + path) == GoAt(elems[i], path)
    ensures forall path: seq<PathStep> :: path != [] && GoAt(GoList(elems), path).Some? ==>
              path[0].Index? && path[0].i < |elems| && GoAt(GoList(elems), path) == GoAt(elems[path[0].i], path[1..])
  {
    forall i: nat, path | i < |elems| ensures GoAt(GoList(elems), [Index(i)] + path) == GoAt(elems[i], path) {
      assert ([Index(i)] + path)[1..] == path;
    }
  }

  /** Every container has a rank above the containers in it: the heap below these containers is acyclic. */
  ghost predicate Ranked(dicts: map<Dict, nat>, lists: map<List, nat>)
    reads dicts.Keys, lists.Keys
  {
    (forall d :: d in dicts ==> forall i :: 0 <= i < |d.items| ==>
       Below(d.items[i].0, dicts[d], dicts, lists) && Below(d.items[i].1, dicts[d], dicts, lists)) &&
    (forall l :: l in lists ==> forall i :: 0 <= i < |l.elems| ==> Below(l.elems[i], lists[l], dicts, lists))
  }

  predicate Below(v: Value, rank: nat, dicts: map<Dict, nat>, lists: map<List, nat>) {
    match v
    case DictValue(d) => d in dicts && dicts[d] < rank
    case ListValue(l) => l in lists && lists[l] < rank
    case _ => true
  }

  /** The recursion of starlarkValueToGo, which ranks bound however containers are shared. */
  ghost function Unfold(v: Value, rank: nat, dicts: map<Dict, nat>, lists: map<List, nat>): Tree
    requires Ranked(dicts, lists) && Below(v, rank, dicts, lists)
    reads dicts.Keys, lists.Keys
    decreases rank
  {
    match v
    case None => TNone
    case Bool(b) => TBool(b)
    case Int(i) => TInt(i)
    case Float(f) => TFloat(f)
    case String(s) => TString(s)
    case Other(n) => TOther(n)
    case DictValue(d) =>
      TDict(seq(|d.items|, i requires 0 <= i < |d.items| && Ranked(dicts, lists) && d in dicts && dicts[d] < rank
                           reads d, dicts.Keys, lists.Keys =>
                  Entry(Unfold(d.items[i].0, dicts[d], dicts, lists), Unfold(d.items[i].1, dicts[d], dicts, lists))))
    case ListValue(l) =>
      TList(seq(|l.elems|, i requires 0 <= i < |l.elems| && Ranked(dicts, lists) && l in lists && lists[l] < rank
                           reads l, dicts.Keys, lists.Keys =>
                  Unfold(l.elems[i], lists[l], dicts, lists)))
  }

  /** So every acyclic value unfolds to a tree, and the conversion applies to it. */
  lemma {:induction false} UnfoldDenotes(v: Value, rank: nat, dicts: map<Dict, nat>, lists: map<List, nat>, objs: set<object>)
    requires Ranked(dicts, lists) && Below(v, rank, dicts, lists)
    requires (forall d :: d in dicts ==> d in objs) && forall l :: l in lists ==> l in objs
    ensures Denotes(v, Unfold(v, rank, dicts, lists), objs)
    decreases rank
  {
    match v
    case DictValue(d) =>
      forall i | 0 <= i < |d.items|
        ensures Denotes(d.items[i].0, Unfold(d.items[i].0, dicts[d], dicts, lists), objs) &&
                Denotes(d.items[i].1, Unfold(d.items[i].1, dicts[d], dicts, lists), objs)
      {
        UnfoldDenotes(d.items[i].0, dicts[d], dicts, lists, objs);
        UnfoldDenotes(d.items[i].1, dicts[d], dicts, lists, objs);
      }
    case ListValue(l) =>
      forall i | 0 <= i < |l.elems| ensures Denotes(l.elems[i], Unfold(l.elems[i], lists[l], dicts, lists), objs) {
        UnfoldDenotes(l.elems[i], lists[l], dicts, lists, objs);
      }
    case _ =>
  }
}
