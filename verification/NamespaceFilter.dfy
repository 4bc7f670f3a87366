/** The dynamic namespace filter (internal/filter/namespace_filter.go). */
module NamespaceFilter {
  import opened Events

  datatype Namespace = Namespace(name: string, labels: map<string, string>)

  /** What the informer passes to a handler. */
  datatype Object = NamespaceObject(ns: Namespace) | Tombstone(last: Object) | OtherObject

  /** Only delete handlers get tombstones; they unwrap one. */
  function Unwrap(obj: Object): Object {
    if obj.Tombstone? then obj.last else obj
  }

  /** A selector made from matchLabels: every pair has to be there. */
  predicate Matches(selector: map<string, string>, labels: map<string, string>) {
    forall k :: k in selector ==> k in labels && labels[k] == selector[k]
  }

  datatype Notice = Added(obj: Object) | Updated(obj: Object) | Deleted(obj: Object)

  /** The namespace as a notice shows it: present with labels, gone, or not at all. */
  datatype View = Nothing | Present(labels: map<string, string>) | Gone

  function ViewOf(notice: Notice, name: string): View {
    match notice
    case Deleted(obj) =>
      if Unwrap(obj).NamespaceObject? && Unwrap(obj).ns.name == name then Gone else Nothing
    case _ =>
      if notice.obj.NamespaceObject? && notice.obj.ns.name == name then Present(notice.obj.ns.labels) else Nothing
  }

  /** What was last seen of a namespace. */
  function Latest(notices: seq<Notice>, name: string): View {
    if notices == [] then Nothing
    else
      var last := ViewOf(notices[|notices| - 1], name);
      if last == Nothing then Latest(notices[..|notices| - 1], name) else last
  }

  predicate LatestMatches(selector: map<string, string>, notices: seq<Notice>, name: string) {
    var view := Latest(notices, name);
    view.Present? && Matches(selector, view.labels)
  }

  class DynamicNamespaceFilter {
    const selector: map<string, string>
    const includeNonNamespaced: bool
    var allowedNamespaces: set<string>
    ghost var notices: seq<Notice>

    constructor (selector: map<string, string>, includeNonNamespaced: bool)
      ensures Valid() && this.selector == selector && this.includeNonNamespaced == includeNonNamespaced && notices == []
    {
      this.selector, this.includeNonNamespaced := selector, includeNonNamespaced;
      allowedNamespaces, notices := {}, [];
    }

    /** The allowed namespaces are those whose labels matched when they were last seen. */
    ghost predicate Valid()
      reads this
    {
      forall name :: name in allowedNamespaces <==> LatestMatches(selector, notices, name)
    }

    method HandleNamespaceChange(ns: Namespace)
      modifies this`allowedNamespaces
      ensures allowedNamespaces == if Matches(selector, ns.labels) then old(allowedNamespaces) + {ns.name}
                                   else old(allowedNamespaces) - {ns.name}
    {
      if Matches(selector, ns.labels) {
        AddNamespace(ns.name);
        return;
      }
      RemoveNamespace(ns.name);
    }

    method AddNamespace(name: string)
      modifies this`allowedNamespaces
      ensures allowedNamespaces == old(allowedNamespaces) + {name}
    {
      if name !in allowedNamespaces {
        allowedNamespaces := allowedNamespaces + {name};
      }
    }

    method RemoveNamespace(name: string)
      modifies this`allowedNamespaces
      ensures allowedNamespaces == old(allowedNamespaces) - {name}
    {
      if name in allowedNamespaces {
        allowedNamespaces := allowedNamespaces - {name};
      }
    }

    /** Any sequence of additions, updates, resyncs, deletions and tombstones keeps the filter valid. */
    method Handle(notice: Notice)
      requires Valid()
      modifies this
      ensures Valid() && notices == old(notices) + [notice]
    {
      ghost var before := notices;
      match notice {
        case Deleted(obj) =>
          var inner := Unwrap(obj);
          if inner.NamespaceObject? {
            RemoveNamespace(inner.ns.name);
          }
        case _ =>
          if notice.obj.NamespaceObject? {
            HandleNamespaceChange(notice.obj.ns);
          }
      }
      notices := notices + [notice];
      assert notices[..|notices| - 1] == before;
    }

    function IsAllowed(namespace: string): (allowed: bool)
      requires Valid()
      reads this
      ensures allowed <==> LatestMatches(selector, notices, namespace)
    {
      namespace in allowedNamespaces
    }

    function IsAllowedForObject(obj: ObjectReference): (allowed: bool)
      requires Valid()
      reads this
      ensures allowed <==> if obj.namespace == "" then includeNonNamespaced
                           else LatestMatches(selector, notices, obj.namespace)
    {
      if obj.namespace == "" then includeNonNamespaced else IsAllowed(obj.namespace)
    }
  }

  /** Every pair of the selector is among the labels. */
  lemma MatchesIff(selector: map<string, string>, labels: map<string, string>)
    ensures Matches(selector, labels) <==> selector.Items <= labels.Items
  {
    if selector.Items <= labels.Items {
      forall k | k in selector ensures k in labels && labels[k] == selector[k] {
        assert (k, selector[k]) in selector.Items;
      }
    }
  }

  /** What a notice shows: a namespace with labels, also in the tombstone of a missed deletion, or nothing. */
  lemma ViewIff(notice: Notice, name: string)
    ensures ViewOf(notice, name) == Gone <==>
              exists labels :: var ns := NamespaceObject(Namespace(name, labels));
                               notice == Deleted(ns) || notice == Deleted(Tombstone(ns))
    ensures forall labels :: ViewOf(notice, name) == Present(labels) <==>
              var ns := NamespaceObject(Namespace(name, labels));
              notice == Added(ns) || notice == Updated(ns)
  {
    if notice.Deleted? {
      var inner := Unwrap(notice.obj);
      if inner.NamespaceObject? && inner.ns.name == name {
        var ns := NamespaceObject(Namespace(name, inner.ns.labels));
        assert notice == Deleted(ns) || notice == Deleted(Tombstone(ns));
      }
    }
  }

  /** The last notice about a namespace decides, however many others come after it. */
  lemma {:induction false} LatestIsLast(notices: seq<Notice>, name: string, k: nat)
    requires k < |notices| && ViewOf(notices[k], name) != Nothing
    requires forall i :: k < i < |notices| ==> ViewOf(notices[i], name) == Nothing
    ensures Latest(notices, name) == ViewOf(notices[k], name)
  {
    if k < |notices| - 1 {
      LatestIsLast(notices[..|notices| - 1], name, k);
    }
  }
}
