/** Conversion between Go and Starlark values (internal/eventsender/loki/hook.go). */
module Starlark {
  import opened Base
  import opened Numbers

  /** The dynamic types which a Go `any` takes here. */
  datatype GoValue =
    | GoNil
    | GoBool(b: bool)
    | GoFloat(f: Double)
    | GoInt64(i: Int64)
    | GoString(s: string)
    | GoMap(m: map<string, GoValue>)
    | GoList(elems: seq<GoValue>)
    | GoOther(typeName: string)

  /** Starlark's containers are mutable and live on the heap. */
  class Dict {
    var items: seq<(Value, Value)>

    constructor (items: seq<(Value, Value)>)
      ensures this.items == items
    {
      this.items := items;
    }

    method SetKey(key: Value, value: Value)
      requires forall i :: 0 <= i < |items| ==> items[i].0 != key
      modifies this
      ensures items == old(items) + [(key, value)]
    {
      items := items + [(key, value)];
    }
  }

  class List {
    var elems: seq<Value>

    constructor (elems: seq<Value>)
      ensures this.elems == elems
    {
      this.elems := elems;
    }
  }

  datatype Value =
    | None
    | Bool(b: bool)
    | Int(i: int)
    | Float(f: Double)
    | String(s: string)
    | DictValue(d: Dict)
    | ListValue(l: List)
    | Other(typeName: string)

  /** What an acyclic Starlark value looks like, with shared containers unfolded. */
  datatype Tree =
    | TNone
    | TBool(b: bool)
    | TInt(i: int)
    | TFloat(f: Double)
    | TString(s: string)
    | TDict(items: seq<Entry>)
    | TList(elems: seq<Tree>)
    | TOther(typeName: string)

  datatype Entry = Entry(key: Tree, value: Tree)

  /** The value, with the present contents of these containers, unfolds to the tree. */
  ghost predicate Denotes(v: Value, t: Tree, objs: set<object>)
    reads objs
    decreases t
  {
    match (v, t)
    case (None, TNone) => true
    case (Bool(b), TBool(b')) => b == b'
    case (Int(i), TInt(i')) => i == i'
    case (Float(f), TFloat(f')) => f == f'
    case (String(s), TString(s')) => s == s'
    case (Other(n), TOther(n')) => n == n'
    case (DictValue(d), TDict(items)) =>
      d in objs && |d.items| == |items| &&
      forall i :: 0 <= i < |items| ==>
        Denotes(d.items[i].0, items[i].key, objs) && Denotes(d.items[i].1, items[i].value, objs)
    case (ListValue(l), TList(elems)) =>
      l in objs && |l.elems| == |elems| &&
      forall i :: 0 <= i < |elems| ==> Denotes(l.elems[i], elems[i], objs)
    case _ => false
  }

  datatype ConvertError = NonStringKey | IntOverflow | UnsupportedType(typeName: string)

  /** starlarkValueToGo on the unfolded value; the first error in iteration order is returned. */
  function ToGo(t: Tree): Result<GoValue, ConvertError> {
    match t
    case TNone => Success(GoNil)
    case TBool(b) => Success(GoBool(b))
    case TInt(i) => if FitsInt64(i) then Success(GoInt64(i)) else Failure(IntOverflow)
    case TFloat(f) => Success(GoFloat(f))
    case TString(s) => Success(GoString(s))
    case TDict(items) =>
      var m := EntriesToGo(items);
      if m.Success? then Success(GoMap(m.value)) else Failure(m.error)
    case TList(elems) =>
      var l := ElemsToGo(elems);
      if l.Success? then Success(GoList(l.value)) else Failure(l.error)
    case TOther(name) => Failure(UnsupportedType(name))
  }

  function EntriesToGo(items: seq<Entry>): Result<map<string, GoValue>, ConvertError> {
    if items == [] then Success(map[])
    else
      var before, last := EntriesToGo(items[..|items| - 1]), items[|items| - 1];
      if before.Failure? then before
      else if !last.key.TString? then Failure(NonStringKey)
      else
        var value := EntryToGo(last);
        if value.Failure? then Failure(value.error) else Success(before.value[last.key.s := value.value])
  }

  function EntryToGo(entry: Entry): Result<GoValue, ConvertError> {
    ToGo(entry.value)
  }

  function ElemsToGo(elems: seq<Tree>): Result<seq<GoValue>, ConvertError> {
    if elems == [] then Success([])
    else
      var before := ElemsToGo(elems[..|elems| - 1]);
      if before.Failure? then before
      else
        var value := ToGo(elems[|elems| - 1]);
        if value.Failure? then Failure(value.error) else Success(before.value + [value.value])
  }

  lemma EntriesSnoc(items: seq<Entry>, i: nat)
    requires i < |items|
    ensures items[..i + 1][..i] == items[..i] && items[..i + 1][i] == items[i]
  {
  }

  lemma {:induction false} EntriesFail(items: seq<Entry>, i: nat)
    requires i <= |items| && EntriesToGo(items[..i]).Failure?
    ensures EntriesToGo(items) == EntriesToGo(items[..i])
    decreases |items| - i
  {
    if i == |items| {
      assert items[..i] == items;
    } else {
      EntriesSnoc(items, i);
      EntriesFail(items, i + 1);
    }
  }

  lemma {:induction false} ElemsFail(elems: seq<Tree>, i: nat)
    requires i <= |elems| && ElemsToGo(elems[..i]).Failure?
    ensures ElemsToGo(elems) == ElemsToGo(elems[..i])
    decreases |elems| - i
  {
    if i == |elems| {
      assert elems[..i] == elems;
    } else {
      assert elems[..i + 1][..i] == elems[..i];
      ElemsFail(elems, i + 1);
    }
  }

  method StarlarkDictToGoMap(d: Dict, ghost items: seq<Entry>, ghost objs: set<object>)
    returns (r: Result<map<string, GoValue>, ConvertError>)
    requires Denotes(DictValue(d), TDict(items), objs)
    ensures r == EntriesToGo(items)
    decreases TDict(items), 0
  {
    var m: map<string, GoValue> := map[];
    for i := 0 to |d.items|
      invariant EntriesToGo(items[..i]) == Success(m)
    {
      var (key, value) := d.items[i];
      EntriesSnoc(items, i);
      assert Denotes(d.items[i].0, items[i].key, objs);
      if !key.String? {
        EntriesFail(items, i + 1);
        return Failure(NonStringKey);
      }
      var converted := StarlarkValueToGo(value, items[i].value, objs);
      if converted.Failure? {
        EntriesFail(items, i + 1);
        return Failure(converted.error);
      }
      m := m[key.s := converted.value];
    }
    assert items[..|items|] == items;
    return Success(m);
  }

  method StarlarkValueToGo(v: Value, ghost t: Tree, ghost objs: set<object>) returns (r: Result<GoValue, ConvertError>)
    requires Denotes(v, t, objs)
    ensures r == ToGo(t)
    decreases t, 1
  {
    match v {
      case None => return Success(GoNil);
      case Bool(b) => return Success(GoBool(b));
      case Int(i) => return if FitsInt64(i) then Success(GoInt64(i)) else Failure(IntOverflow);
      case Float(f) => return Success(GoFloat(f));
      case String(s) => return Success(GoString(s));
      case DictValue(d) =>
        var m := StarlarkDictToGoMap(d, t.items, objs);
        return if m.Success? then Success(GoMap(m.value)) else Failure(m.error);
      case ListValue(l) =>
        var elems: seq<GoValue> := [];
        for i := 0 to |l.elems|
          invariant ElemsToGo(t.elems[..i]) == Success(elems)
        {
          assert t.elems[..i + 1][..i] == t.elems[..i];
          var converted := StarlarkValueToGo(l.elems[i], t.elems[i], objs);
          if converted.Failure? {
            ElemsFail(t.elems, i + 1);
            return Failure(converted.error);
          }
          elems := elems + [converted.value];
        }
        assert t.elems[..|t.elems|] == t.elems;
        return Success(GoList(elems));
      case Other(name) => return Failure(UnsupportedType(name));
    }
  }

  lemma {:induction false} DenotesInMore(v: Value, t: Tree, objs: set<object>, more: set<object>)
    requires Denotes(v, t, objs) && objs <= more
    ensures Denotes(v, t, more)
    decreases t
  {
    match (v, t)
    case (DictValue(d), TDict(items)) =>
      forall i | 0 <= i < |items|
        ensures Denotes(d.items[i].0, items[i].key, more) && Denotes(d.items[i].1, items[i].value, more)
      {
        assert items[i].key < items[i] && items[i].value < items[i];
        DenotesInMore(d.items[i].0, items[i].key, objs, more);
        DenotesInMore(d.items[i].1, items[i].value, objs, more);
      }
    case (ListValue(l), TList(elems)) =>
      forall i | 0 <= i < |elems| ensures Denotes(l.elems[i], elems[i], more) {
        DenotesInMore(l.elems[i], elems[i], objs, more);
      }
    case _ =>
  }

  /** What json.Unmarshal produces for `any`: no other types than these. */
  predicate JsonShaped(v: GoValue) {
    match v
    case GoMap(m) => forall k :: k in m ==> JsonShaped(m[k])
    case GoList(elems) => forall i :: 0 <= i < |elems| ==> JsonShaped(elems[i])
    case GoInt64(_) => false
    case GoOther(_) => false
    case _ => true
  }

  /** A dict lists the entries of the Go map in an order which Go leaves open. */
  ghost predicate Encodes(v: GoValue, t: Tree)
    decreases v
  {
    match v
    case GoNil => t == TNone
    case GoBool(b) => t == TBool(b)
    case GoFloat(f) => t == TFloat(f)
    case GoString(s) => t == TString(s)
    case GoMap(m) =>
      t.TDict? && (set k | k in m) == Keys(t.items) && |t.items| == |m| &&
      forall i :: 0 <= i < |t.items| ==>
        t.items[i].key.TString? && t.items[i].key.s in m && Encodes(m[t.items[i].key.s], t.items[i].value)
    case GoList(elems) =>
      t.TList? && |t.elems| == |elems| && forall i :: 0 <= i < |elems| ==> Encodes(elems[i], t.elems[i])
    case _ => false
  }

  ghost function Keys(items: seq<Entry>): set<string> {
    set i | 0 <= i < |items| && items[i].key.TString? :: items[i].key.s
  }

  lemma KeysSnoc(items: seq<Entry>, key: string, value: Tree)
    ensures Keys(items + [Entry(TString(key), value)]) == Keys(items) + {key}
  {
    var more := items + [Entry(TString(key), value)];
    assert more[|items|].key == TString(key);
    forall k | k in Keys(items) ensures k in Keys(more) {
      var i :| 0 <= i < |items| && items[i].key == TString(k);
      assert more[i] == items[i];
    }
  }

  /** These dict items, with string keys, unfold to the entries. */
  ghost predicate ItemsDenote(pairs: seq<(Value, Value)>, items: seq<Entry>, objs: set<object>)
    reads objs
  {
    |pairs| == |items| &&
    forall i :: 0 <= i < |items| ==>
      items[i].key.TString? && pairs[i].0 == String(items[i].key.s) && Denotes(pairs[i].1, items[i].value, objs)
  }

  lemma ItemsDenoteInMore(pairs: seq<(Value, Value)>, items: seq<Entry>, objs: set<object>, more: set<object>)
    requires ItemsDenote(pairs, items, objs) && objs <= more
    ensures ItemsDenote(pairs, items, more)
  {
    forall i | 0 <= i < |items| ensures Denotes(pairs[i].1, items[i].value, more) {
      DenotesInMore(pairs[i].1, items[i].value, objs, more);
    }
  }

  ghost predicate EntriesEncode(m: map<string, GoValue>, items: seq<Entry>) {
    forall i :: 0 <= i < |items| ==>
      items[i].key.TString? && items[i].key.s in m && Encodes(m[items[i].key.s], items[i].value)
  }

  lemma ItemsDenoteSnoc(pairs: seq<(Value, Value)>, items: seq<Entry>, key: string, value: Value, t: Tree, objs: set<object>)
    requires ItemsDenote(pairs, items, objs) && Denotes(value, t, objs)
    ensures ItemsDenote(pairs + [(String(key), value)], items + [Entry(TString(key), t)], objs)
  {
  }

  lemma EntriesEncodeSnoc(m: map<string, GoValue>, items: seq<Entry>, key: string, t: Tree)
    requires EntriesEncode(m, items) && key in m && Encodes(m[key], t)
    ensures EntriesEncode(m, items + [Entry(TString(key), t)])
  {
  }

  lemma EntriesEncodeMap(m: map<string, GoValue>, items: seq<Entry>)
    requires EntriesEncode(m, items) && Keys(items) == m.Keys && |items| == |m|
    ensures Encodes(GoMap(m), TDict(items))
  {
  }

  lemma ItemsDenoteDict(d: Dict, items: seq<Entry>, objs: set<object>)
    requires ItemsDenote(d.items, items, objs)
    ensures Denotes(DictValue(d), TDict(items), objs + {d})
  {
    ItemsDenoteInMore(d.items, items, objs, objs + {d});
    forall i | 0 <= i < |items| ensures Denotes(d.items[i].0, items[i].key, objs + {d}) {
      assert items[i].key == TString(items[i].key.s);
    }
  }

  lemma KeysOf(items: seq<Entry>, i: nat)
    requires i < |items| && items[i].key.TString?
    ensures items[i].key.s in Keys(items)
  {
  }

  /** One pass of the loop in goMapToStarlarkDict. */
  method SetConverted(d: Dict, k: string, value: GoValue, ghost items: seq<Entry>, ghost objs: set<object>)
    returns (r: Result<(), ConvertError>, ghost t: Tree, ghost objs': set<object>)
    requires d !in objs && ItemsDenote(d.items, items, objs) && k !in Keys(items)
    modifies d
    ensures r.Success? <==> JsonShaped(value)
    ensures r.Success? ==>
              objs <= objs' && fresh(objs' - objs) && d !in objs' && Encodes(value, t) &&
              ItemsDenote(d.items, items + [Entry(TString(k), t)], objs')
    decreases value, 2
  {
    hide Keys, Denotes;
    var converted, tree, valueObjs := GoValueToStarlark(value);
    if converted.Failure? {
      return Failure(converted.error), TNone, {};
    }
    t, objs' := tree, objs + valueObjs;
    ItemsDenoteInMore(d.items, items, objs, objs');
    DenotesInMore(converted.value, t, valueObjs, objs');
    ItemsDenoteSnoc(d.items, items, k, converted.value, t, objs');
    forall i | 0 <= i < |d.items| ensures d.items[i].0 != String(k) {
      KeysOf(items, i);
    }
    d.SetKey(String(k), converted.value);
    r := Success(());
  }

  lemma MapIsShaped(m: map<string, GoValue>)
    ensures JsonShaped(GoMap(m)) <==> forall k :: k in m ==> JsonShaped(m[k])
  {
  }

  method GoMapToStarlarkDict(m: map<string, GoValue>)
    returns (r: Result<Dict, ConvertError>, ghost items: seq<Entry>, ghost objs: set<object>)
    ensures r.Success? <==> JsonShaped(GoMap(m))
    ensures r.Success? ==> fresh(objs) && Denotes(DictValue(r.value), TDict(items), objs) && Encodes(GoMap(m), TDict(items))
    ensures r.Success? ==> r.value in objs && ItemsDenote(r.value.items, items, objs - {r.value})
    decreases GoMap(m), 0
  {
    hide Keys, EntriesEncode, Encodes, Denotes, JsonShaped;
    MapIsShaped(m);
    var d := new Dict([]);
    items, objs := [], {};
    var todo := m.Keys;
    assert Keys(items) == {} && EntriesEncode(m, items) by { NothingEncoded(m); }
    while todo != {}
      invariant todo <= m.Keys
      invariant fresh(d) && fresh(objs) && d !in objs
      invariant |items| == |m| - |todo| && Keys(items) == m.Keys - todo
      invariant forall k :: k in m && k !in todo ==> JsonShaped(m[k])
      invariant ItemsDenote(d.items, items, objs) && EntriesEncode(m, items)
      decreases |todo|
    {
      var k :| k in todo;
      var converted, t, objs' := SetConverted(d, k, m[k], items, objs);
      if converted.Failure? {
        return Failure(converted.error), [], {};
      }
      EntriesEncodeSnoc(m, items, k, t);
      KeysSnoc(items, k, t);
      items, objs, todo := items + [Entry(TString(k), t)], objs', todo - {k};
    }
    ItemsDenoteDict(d, items, objs);
    EntriesEncodeMap(m, items);
    assert objs + {d} - {d} == objs;
    objs := objs + {d};
    r := Success(d);
  }

  /** This dict, with the containers in it, is an encoding of the Go map. */
  ghost predicate Represents(d: Dict, m: map<string, GoValue>, objs: set<object>)
    reads objs
  {
    exists items :: Denotes(DictValue(d), TDict(items), objs) && Encodes(GoMap(m), TDict(items))
  }

  lemma MapEntries(m: map<string, GoValue>, items: seq<Entry>)
    requires Encodes(GoMap(m), TDict(items))
    ensures EntriesEncode(m, items) && Keys(items) == m.Keys && |items| == |m|
  {
  }

  lemma EntriesEncodeInMore(m: map<string, GoValue>, items: seq<Entry>, key: string, value: GoValue)
    requires EntriesEncode(m, items) && key !in m
    ensures EntriesEncode(m[key := value], items) && |m[key := value]| == |m| + 1
    ensures forall i :: 0 <= i < |items| ==> items[i].key.TString? && items[i].key.s != key
  {
    assert m[key := value].Keys == m.Keys + {key};
  }

  /** The entries of a map which gets one more key. */
  lemma EncodesOneMore(m: map<string, GoValue>, items: seq<Entry>, key: string, value: GoValue, t: Tree)
    requires Encodes(GoMap(m), TDict(items)) && key !in m && Encodes(value, t)
    ensures Encodes(GoMap(m[key := value]), TDict(items + [Entry(TString(key), t)]))
    ensures forall i :: 0 <= i < |items| ==> items[i].key.TString? && items[i].key.s != key
  {
    hide Encodes, Keys, EntriesEncode;
    MapEntries(m, items);
    EntriesEncodeInMore(m, items, key, value);
    KeysSnoc(items, key, t);
    EntriesEncodeSnoc(m[key := value], items, key, t);
    EntriesEncodeMap(m[key := value], items + [Entry(TString(key), t)]);
  }

  lemma DictTree(v: Value, t: Tree, objs: set<object>)
    requires Denotes(v, t, objs)
    ensures (v.None? <==> t.TNone?) && (v.DictValue? <==> t.TDict?)
    ensures v.DictValue? ==> Denotes(DictValue(v.d), TDict(t.items), objs)
  {
  }

  lemma NothingEncoded(m: map<string, GoValue>)
    ensures Keys([]) == {} && EntriesEncode(m, [])
  {
  }

  method GoValueToStarlark(v: GoValue) returns (r: Result<Value, ConvertError>, ghost t: Tree, ghost objs: set<object>)
    ensures r.Success? <==> JsonShaped(v)
    ensures r.Success? ==> fresh(objs) && Denotes(r.value, t, objs) && Encodes(v, t)
    decreases v, 1
  {
    t, objs := TNone, {};
    match v {
      case GoNil => r := Success(Value.None);
      case GoBool(b) => r, t := Success(Bool(b)), TBool(b);
      case GoFloat(f) => r, t := Success(Float(f)), TFloat(f);
      case GoString(s) => r, t := Success(String(s)), TString(s);
      case GoMap(m) =>
        var d, items, dictObjs := GoMapToStarlarkDict(m);
        if d.Failure? {
          return Failure(d.error), TNone, {};
        }
        return Success(DictValue(d.value)), TDict(items), dictObjs;
      case GoList(elems) =>
        var values: seq<Value> := [];
        ghost var trees: seq<Tree> := [];
        for i := 0 to |elems|
          invariant |values| == |trees| == i && fresh(objs)
          invariant forall j :: 0 <= j < i ==>
                      JsonShaped(elems[j]) && Denotes(values[j], trees[j], objs) && Encodes(elems[j], trees[j])
        {
          var value, tree, valueObjs := GoValueToStarlark(elems[i]);
          if value.Failure? {
            return Failure(value.error), TNone, {};
          }
          forall j | 0 <= j < i ensures Denotes(values[j], trees[j], objs + valueObjs) {
            DenotesInMore(values[j], trees[j], objs, objs + valueObjs);
          }
          DenotesInMore(value.value, tree, valueObjs, objs + valueObjs);
          values, trees, objs := values + [value.value], trees + [tree], objs + valueObjs;
        }
        var l := new List(values);
        forall j | 0 <= j < |elems| ensures Denotes(values[j], trees[j], objs + {l}) {
          DenotesInMore(values[j], trees[j], objs, objs + {l});
        }
        return Success(ListValue(l)), TList(trees), objs + {l};
      case GoInt64(i) => r := Failure(UnsupportedType("int64"));
      case GoOther(name) => r := Failure(UnsupportedType(name));
    }
  }
}
