/** JSON documents as Python holds them: nested lists and dictionaries updated in place. */
module Documents {
  import opened Json
  import opened Subscription
  import opened Substitution
  import opened Wrappers

  /** What a list or dictionary holds: an immutable value, or a reference to another container. */
  datatype Slot = Atom(value: Json) | Child(node: Node)

  datatype Body = Array(items: seq<Slot>) | Object(fields: map<string, Slot>)

  ghost function Region(s: Slot): set<Node> {
    if s.Child? then s.node.Repr else {}
  }

  /** Assignments replaced leaves only: every nested container is where it was. */
  ghost predicate Kept(before: Body, after: Body) {
    match before
    case Array(_) => after == before
    case Object(fields) =>
      && after.Object? && after.fields.Keys == fields.Keys
      && forall k <- fields :: fields[k].Child? ==> after.fields[k] == fields[k]
  }

  ghost predicate Stands(s: Slot, j: Json)
    reads if s.Child? then {s.node} + s.node.Repr else {}
    decreases j, 2
  {
    match s
    case Atom(value) => value == j && !j.List? && !j.Dict?
    case Child(c) => c.Holds(j)
  }

  class Node {
    var body: Body
    ghost const Repr: set<Node>

    constructor (body: Body, ghost below: set<Node>)
      ensures this.body == body && Repr == below + {this}
    {
      this.body := body;
      Repr := below + {this};
    }

    ghost predicate Under(s: Slot) {
      s.Child? ==> s.node in s.node.Repr && s.node.Repr <= Repr - {this}
    }

    /** The slots reach separate parts of the tree. */
    ghost predicate Shaped()
      reads this
    {
      && this in Repr
      && match body
         case Array(items) =>
           && (forall i :: 0 <= i < |items| ==> Under(items[i]))
           && (forall i, k :: 0 <= i < k < |items| ==> Region(items[i]) !! Region(items[k]))
         case Object(fields) =>
           && (forall key <- fields :: Under(fields[key]))
           && (forall k, l :: k in fields && l in fields && k != l ==> Region(fields[k]) !! Region(fields[l]))
    }

    /** The container is the root of a tree, no container shared, that stands for `j`. */
    ghost predicate Holds(j: Json)
      reads this, Repr
      decreases j, 1
    {
      && Shaped()
      && match j
         case List(js) =>
           && body.Array? && |body.items| == |js|
           && forall i :: 0 <= i < |js| ==> Under(body.items[i]) && Stands(body.items[i], js[i])
         case Dict(m) =>
           && body.Object? && body.fields.Keys == m.Keys
           && forall key <- m :: Under(body.fields[key]) && Stands(body.fields[key], m[key])
         case _ => false
    }
  }

  /** What a slot that stands for a value looks like. */
  lemma Unfold(s: Slot, j: Json)
    requires Stands(s, j)
    ensures match j
      case List(js) =>
        && s.Child? && s.node.Holds(j) && s.node.body.Array? && |s.node.body.items| == |js|
        && forall i :: 0 <= i < |js| ==> Stands(s.node.body.items[i], js[i])
      case Dict(m) =>
        && s.Child? && s.node.Holds(j) && s.node.body.Object? && s.node.body.fields.Keys == m.Keys
        && forall key <- m :: Stands(s.node.body.fields[key], m[key])
      case _ => s == Atom(j)
  {
  }

  method ReplaceItem(s: Slot, from: string, to: string, ghost j: Json)
    requires Stands(s, j)
    modifies Region(s)
    ensures Stands(s, Replace(j, from, to))
    decreases j, 3
  {
    match s
    case Child(c) => ReplaceRefs(c, from, to, j);
    case Atom(_) =>
  }

  method ReplaceRefs(n: Node, from: string, to: string, ghost j: Json)
    requires n.Holds(j)
    modifies n.Repr
    ensures n.Holds(Replace(j, from, to)) && Kept(old(n.body), n.body)
    decreases j, 2
  {
    match n.body
    case Object(_) => ReplaceInDict(n, from, to, j.fields);
    case Array(_) => ReplaceInList(n, from, to, j);
  }

  method ReplaceInList(n: Node, from: string, to: string, ghost j: Json)
    requires n.Holds(j) && n.body.Array?
    modifies n.Repr
    ensures n.Holds(Replace(j, from, to)) && Kept(old(n.body), n.body)
    decreases j, 0
  {
    var items := n.body.items;
    for i := 0 to |items|
      invariant n.body == Array(items)
      invariant n.Shaped()
      invariant forall k :: i <= k < |items| ==> Stands(items[k], j.items[k])
      invariant forall k :: 0 <= k < i ==> Stands(items[k], Replace(j.items[k], from, to))
    {
      ReplaceItem(items[i], from, to, j.items[i]);
    }
  }

  /** What a replacement makes of the value of one key. */
  function Entry(j: Json, from: string, to: string): Json {
    if j == Str(from) then Str(to) else Replace(j, from, to)
  }

  method ReplaceEntry(n: Node, key: string, from: string, to: string, ghost m: map<string, Json>)
    requires n.Holds(Dict(m)) && key in m
    modifies n.Repr
    ensures n.Holds(Dict(m[key := Entry(m[key], from, to)])) && Kept(old(n.body), n.body)
    decreases m[key], 4
  {
    var fields := n.body.fields;
    if fields[key] == Atom(Str(from)) {
      n.body := Object(fields[key := Atom(Str(to))]);
    } else {
      ReplaceItem(fields[key], from, to, m[key]);
    }
    forall k | k in m && k != key ensures n.Under(n.body.fields[k]) && Stands(n.body.fields[k], m[k]) {
      assert n.body.fields[k] == fields[k];
      assert Region(fields[k]) !! Region(fields[key]);
    }
  }

  /** The dictionary once every key outside `keys` has been visited. */
  ghost function Visited(m: map<string, Json>, keys: set<string>, from: string, to: string): map<string, Json> {
    map k | k in m :: if k in keys then m[k] else Entry(m[k], from, to)
  }

  lemma VisitedNone(m: map<string, Json>, from: string, to: string)
    ensures Visited(m, m.Keys, from, to) == m
  {
  }

  lemma VisitedOne(m: map<string, Json>, keys: set<string>, key: string, from: string, to: string)
    requires key in keys && keys <= m.Keys
    ensures var v := Visited(m, keys, from, to);
      Visited(m, keys - {key}, from, to) == v[key := Entry(v[key], from, to)] && v[key] == m[key]
  {
  }

  lemma VisitedAll(m: map<string, Json>, from: string, to: string)
    ensures Dict(Visited(m, {}, from, to)) == Replace(Dict(m), from, to)
  {
    assert Visited(m, {}, from, to) == Replace(Dict(m), from, to).fields;
  }

  method Keys(n: Node, ghost m: map<string, Json>) returns (keys: set<string>)
    requires n.Holds(Dict(m))
    ensures keys == m.Keys
  {
    keys := n.body.fields.Keys;
  }

  method ReplaceNext(n: Node, from: string, to: string, ghost m: map<string, Json>, keys: set<string>)
    returns (rest: set<string>)
    requires keys != {} && keys <= m.Keys && n.Holds(Dict(Visited(m, keys, from, to)))
    modifies n.Repr
    ensures rest < keys && |rest| < |keys|
    ensures n.Holds(Dict(Visited(m, rest, from, to))) && Kept(old(n.body), n.body)
    decreases Dict(m), 0
  {
    var key :| key in keys;
    rest := keys - {key};
    VisitedOne(m, keys, key, from, to);
    ReplaceEntry(n, key, from, to, Visited(m, keys, from, to));
  }

  method ReplaceInDict(n: Node, from: string, to: string, ghost m: map<string, Json>)
    requires n.Holds(Dict(m))
    modifies n.Repr
    ensures n.Holds(Replace(Dict(m), from, to)) && Kept(old(n.body), n.body)
    decreases Dict(m), 1
  {
    var keys := Keys(n, m);
    ghost var before := n.body;
    VisitedNone(m, from, to);
    while keys != {}
      invariant keys <= m.Keys
      invariant n.Holds(Dict(Visited(m, keys, from, to))) && Kept(before, n.body)
      decreases |keys|
    {
      keys := ReplaceNext(n, from, to, m, keys);
    }
    VisitedAll(m, from, to);
  }

  // ------------------------------------------------------------------ normalising

  /** The tag to be renamed, when the outbound needs it. */
  method PendingTag(s: Slot, ghost j: Json) returns (tag: Option<Slot>)
    requires Stands(s, j)
    ensures tag.Some? <==> NeedsRename(j)
    ensures tag.Some? ==> Stands(tag.value, j.Get("tag"))
  {
    Unfold(s, j);
    if s.Atom? || s.node.body.Array? {
      return None;
    }
    var fields := s.node.body.fields;
    if "type" !in fields || "tag" !in fields {
      return None;
    }
    Unfold(fields["type"], j.Get("type"));
    Unfold(fields["tag"], j.Get("tag"));
    if fields["type"].Child? || fields["type"].value !in SELECTOR_TYPES {
      return None;
    }
    var truthy := Truthy(fields["tag"], j.Get("tag"));
    tag := if truthy && fields["tag"] != Atom(Str(SWITCH_TAG)) then Some(fields["tag"]) else None;
  }

  method Truthy(s: Slot, ghost j: Json) returns (truthy: bool)
    requires Stands(s, j)
    ensures truthy == j.Truthy()
  {
    Unfold(s, j);
    match s
    case Atom(value) => truthy := value.Truthy();
    case Child(c) =>
      match c.body {
        case Array(items) => truthy := items != [];
        case Object(fields) =>
          truthy := fields.Keys != {};
      }
  }

  method SetTag(o: Node, ghost m: map<string, Json>)
    requires o.Holds(Dict(m))
    modifies o
    ensures o.Holds(Dict(m["tag" := Str(SWITCH_TAG)]))
  {
    o.body := Object(o.body.fields["tag" := Atom(Str(SWITCH_TAG))]);
  }

  method SetTagAt(list: Node, i: nat, ghost js: seq<Json>)
    requires list.Holds(List(js)) && i < |js| && js[i].Dict?
    modifies list.Repr - {list}
    ensures list.Holds(List(js[i := Dict(js[i].fields["tag" := Str(SWITCH_TAG)])]))
  {
    var items := list.body.items;
    assert Stands(items[i], js[i]);
    SetTag(items[i].node, js[i].fields);
    forall k | 0 <= k < |js| && k != i ensures Stands(items[k], js[k]) {
      assert Region(items[k]) !! Region(items[i]);
    }
  }

  method SetTagOf(data: Node, i: nat, ghost j: Json)
    requires data.Holds(j) && HasList(j) && i < |Subscription.Outbounds(j)| && Subscription.Outbounds(j)[i].Dict?
    modifies data.Repr - {data}
    ensures data.Holds(WithTag(j, i))
  {
    var fields := data.body.fields;
    assert Stands(fields["outbounds"], j.fields["outbounds"]);
    SetTagAt(fields["outbounds"].node, i, Subscription.Outbounds(j));
    forall k | k in fields && k != "outbounds" ensures Stands(fields[k], j.fields[k]) {
      assert Region(fields[k]) !! Region(fields["outbounds"]);
    }
  }

  /** One turn of the loop over the outbounds. */
  method VisitOutbound(data: Node, i: nat, ghost j: Json)
    requires data.Holds(j) && HasList(j) && i < |Subscription.Outbounds(j)|
    modifies data.Repr
    ensures data.Holds(Visit(j, i)) && Kept(old(data.body), data.body)
  {
    Unfold(Child(data), j);
    Unfold(data.body.fields["outbounds"], j.fields["outbounds"]);
    var list := data.body.fields["outbounds"].node;
    var tag := PendingTag(list.body.items[i], Subscription.Outbounds(j)[i]);
    if tag.Some? {
      Unfold(tag.value, Subscription.Outbounds(j)[i].Get("tag"));
      SetTagOf(data, i, j);
      if tag.value.Atom? && tag.value.value.Str? {
        ReplaceRefs(data, tag.value.value.text, SWITCH_TAG, WithTag(j, i));
      }
    }
  }

  method NormalizeList(data: Node, ghost j: Json)
    requires data.Holds(j) && HasList(j)
    modifies data.Repr
    ensures data.Holds(Pass(j, 0)) && Kept(old(data.body), data.body)
  {
    Unfold(Child(data), j);
    Unfold(data.body.fields["outbounds"], j.fields["outbounds"]);
    var count := |data.body.fields["outbounds"].node.body.items|;
    ghost var now := j;
    for i := 0 to count
      invariant HasList(now) && |Subscription.Outbounds(now)| == count
      invariant data.Holds(now) && Kept(old(data.body), data.body)
      invariant Pass(now, i) == Pass(j, 0)
    {
      VisitOutbound(data, i, now);
      now := Visit(now, i);
    }
  }

  /** `normalize_profile`: renames in place, or fails before the first assignment. */
  method NormalizeProfile(data: Node, ghost j: Json) returns (ok: bool)
    requires data.Holds(j) && j.Dict?
    modifies data.Repr
    ensures ok <==> Normalize(j).Ok?
    ensures data.Holds(if ok then Normalize(j).value else j) && Kept(old(data.body), data.body)
  {
    var fields := data.body.fields;
    if "outbounds" !in fields {
      assert "outbounds" !in j.fields;
      return true;
    }
    Unfold(Child(data), j);
    Unfold(fields["outbounds"], j.fields["outbounds"]);
    match fields["outbounds"]
    case Atom(value) =>
      ok := value.Str?;
    case Child(c) =>
      if c.body.Array? {
        NormalizeList(data, j);
      }
      ok := true;
  }

  // -------------------------------------------------------------------- merging

  ghost function Regions(fields: map<string, Slot>): set<Node> {
    set k, c | k in fields && c in Region(fields[k]) :: c
  }

  predicate IsContainer(j: Json) {
    j.List? || j.Dict?
  }

  /**
   The baseline after a merge. The merged dictionary shares the baseline's own containers,
   so a rename in the result is a rename in the baseline, except for what the subscription
   overrides and for plain values.
   */
  ghost function Leaked(subscription: Json, baseline: Json, merged: Json): Json
    requires subscription.Dict? && baseline.Dict? && merged.Dict? && baseline.fields.Keys <= merged.fields.Keys
  {
    Dict(map k | k in baseline.fields ::
           if k in subscription.fields || !IsContainer(baseline.fields[k]) then baseline.fields[k] else merged.fields[k])
  }

  lemma KeysKept(profile: Json)
    requires profile.Dict? && Normalize(profile).Ok?
    ensures Normalize(profile).value.Dict? && Normalize(profile).value.fields.Keys == profile.fields.Keys
  {
    if HasList(profile) {
      PassKeepsKeys(profile, 0);
    }
  }

  lemma {:induction false} PassKeepsKeys(profile: Json, i: nat)
    requires HasList(profile) && i <= |Subscription.Outbounds(profile)|
    ensures Pass(profile, i).fields.Keys == profile.fields.Keys
    decreases |Subscription.Outbounds(profile)| - i
  {
    if i < |Subscription.Outbounds(profile)| {
      PassKeepsKeys(Visit(profile, i), i + 1);
    }
  }

  /** What the subscription overrides, the merged dictionary does not reach. */
  lemma OverriddenApart(baseline: Node, subscription: Node, key: string)
    requires baseline.Shaped() && baseline.body.Object? && subscription.Shaped() && subscription.body.Object?
    requires baseline.Repr !! subscription.Repr
    requires key in baseline.body.fields && key in subscription.body.fields
    ensures Region(baseline.body.fields[key]) !! Regions(baseline.body.fields + subscription.body.fields)
  {
    var b, fields := baseline.body.fields, baseline.body.fields + subscription.body.fields;
    forall k | k in fields ensures Region(b[key]) !! Region(fields[k]) {
      assert baseline.Under(b[key]);
      if k in subscription.body.fields {
        assert subscription.Under(fields[k]);
      } else {
        assert fields[k] == b[k] && k != key;
      }
    }
  }

  lemma WithinBoth(baseline: Node, subscription: Node)
    requires baseline.Shaped() && baseline.body.Object? && subscription.Shaped() && subscription.body.Object?
    ensures Regions(baseline.body.fields + subscription.body.fields)
         <= (baseline.Repr - {baseline}) + (subscription.Repr - {subscription})
  {
    var fields := baseline.body.fields + subscription.body.fields;
    forall k | k in fields ensures Region(fields[k]) <= (baseline.Repr - {baseline}) + (subscription.Repr - {subscription}) {
      if k in subscription.body.fields {
        assert subscription.Under(fields[k]);
      } else {
        assert baseline.Under(fields[k]);
      }
    }
  }

  /** `{**baseline, **subscription}`: a new dictionary over the containers of the other two. */
  method Overlay(baseline: Node, subscription: Node, ghost b: Json, ghost s: Json) returns (merged: Node)
    requires baseline.Holds(b) && b.Dict? && subscription.Holds(s) && s.Dict?
    requires baseline.Repr !! subscription.Repr
    ensures fresh(merged) && merged.Repr == Regions(baseline.body.fields + subscription.body.fields) + {merged}
    ensures merged.Holds(Dict(b.fields + s.fields)) && merged.body == Object(baseline.body.fields + subscription.body.fields)
  {
    var fields := baseline.body.fields + subscription.body.fields;
    merged := new Node(Object(fields), Regions(fields));
    forall k | k in fields ensures merged.Under(fields[k]) {
      assert Region(fields[k]) <= Regions(fields);
    }
  }

  /** The slots of the baseline that the merged dictionary does not share. */
  ghost function Spared(fields: map<string, Slot>, s: Json): map<string, Slot>
    requires s.Dict?
  {
    map k | k in fields && (k in s.fields || fields[k].Atom?) :: fields[k]
  }

  lemma SparedApart(baseline: Node, subscription: Node, b: Json, s: Json)
    requires baseline.Holds(b) && b.Dict? && subscription.Holds(s) && s.Dict?
    requires baseline.Repr !! subscription.Repr
    ensures var spared := Spared(baseline.body.fields, s);
      && (forall k <- spared :: Stands(spared[k], b.fields[k]))
      && (forall k <- spared :: spared[k].Child? ==> spared[k].node in Region(spared[k]))
      && (forall k <- spared :: Region(spared[k]) !! Regions(baseline.body.fields + subscription.body.fields))
  {
    var spared := Spared(baseline.body.fields, s);
    forall k | k in spared ensures Region(spared[k]) !! Regions(baseline.body.fields + subscription.body.fields) {
      if spared[k].Child? {
        OverriddenApart(baseline, subscription, k);
      }
    }
    forall k | k in spared ensures spared[k].Child? ==> spared[k].node in Region(spared[k]) {
      assert baseline.Under(spared[k]);
    }
  }

  /** Which values of the baseline are containers of their own. */
  lemma ContainersKnown(baseline: Node, b: Json)
    requires baseline.Holds(b) && b.Dict?
    ensures baseline.body.Object? && baseline.body.fields.Keys == b.fields.Keys && baseline.Shaped()
    ensures forall k <- b.fields :: baseline.body.fields[k].Child? <==> IsContainer(b.fields[k])
  {
    Unfold(Child(baseline), b);
    forall k | k in b.fields ensures baseline.body.fields[k].Child? <==> IsContainer(b.fields[k]) {
      Unfold(baseline.body.fields[k], b.fields[k]);
    }
  }

  /** The baseline's slots after the merge, put together again. */
  lemma LeakedHolds(baseline: Node, merged: Node, spared: map<string, Slot>, s: Json, b: Json, result: Json)
    requires b.Dict? && s.Dict? && baseline.Shaped() && baseline.body.Object? && baseline.body.fields.Keys == b.fields.Keys
    requires forall k <- b.fields :: baseline.body.fields[k].Child? <==> IsContainer(b.fields[k])
    requires result.Dict? && b.fields.Keys <= result.fields.Keys && merged.Holds(result)
    requires forall k <- b.fields :: k !in spared ==>
      merged.body.Object? && k in merged.body.fields && merged.body.fields[k] == baseline.body.fields[k]
    requires spared == Spared(baseline.body.fields, s) && forall k <- spared :: Stands(spared[k], b.fields[k])
    ensures baseline.Holds(Leaked(s, b, result))
  {
    Unfold(Child(merged), result);
    var leaked := Leaked(s, b, result).fields;
    forall k | k in leaked ensures Stands(baseline.body.fields[k], leaked[k]) {
      if k in spared {
        assert baseline.body.fields[k] == spared[k];
      } else {
        assert Stands(merged.body.fields[k], result.fields[k]);
      }
    }
  }

  method NormalizeBeside(merged: Node, ghost top: Json, ghost spared: map<string, Slot>, ghost m: map<string, Json>)
    returns (ok: bool)
    requires merged.Holds(top) && top.Dict?
    requires spared.Keys <= m.Keys
    requires forall k <- spared :: Stands(spared[k], m[k])
    requires forall k <- spared :: spared[k].Child? ==> spared[k].node in Region(spared[k])
    requires forall k <- spared :: Region(spared[k]) !! merged.Repr
    modifies merged.Repr
    ensures ok <==> Normalize(top).Ok?
    ensures merged.Holds(if ok then Normalize(top).value else top) && Kept(old(merged.body), merged.body)
    ensures forall k <- spared :: Stands(spared[k], m[k])
  {
    ok := NormalizeProfile(merged, top);
  }

  method MergeProfile(subscription: Node, baseline: Node, ghost s: Json, ghost b: Json)
    returns (merged: Node, ok: bool)
    requires baseline.Holds(b) && b.Dict? && subscription.Holds(s) && s.Dict?
    requires baseline.Repr !! subscription.Repr
    modifies baseline.Repr - {baseline}, subscription.Repr - {subscription}
    ensures fresh(merged) && (ok <==> Merge(s, b).Ok?)
    ensures ok ==> Merge(s, b).value.Dict? && Merge(s, b).value.fields.Keys == b.fields.Keys + s.fields.Keys
    ensures ok ==> merged.Holds(Merge(s, b).value)
    ensures ok ==> baseline.Holds(Leaked(s, b, Merge(s, b).value))
  {
    ghost var top := Dict(b.fields + s.fields);
    ghost var spared := Spared(baseline.body.fields, s);
    ContainersKnown(baseline, b);
    SparedApart(baseline, subscription, b, s);
    WithinBoth(baseline, subscription);
    merged := Overlay(baseline, subscription, b, s);
    ok := NormalizeBeside(merged, top, spared, b.fields);
    if ok {
      KeysKept(top);
      LeakedHolds(baseline, merged, spared, s, b, Merge(s, b).value);
    }
  }

  // ------------------------------------------------- when the baseline is left alone

  lemma {:induction false} SubstFixedIff(node: Json, names: set<string>)
    requires SWITCH_TAG !in names
    ensures Subst(node, names) == node <==> forall t :: t in names ==> Unreferenced(node, t)
  {
    match node
    case Dict(fields) =>
      forall k | k in fields && !fields[k].Str?
        ensures Subst(fields[k], names) == fields[k] <==> forall t :: t in names ==> Unreferenced(fields[k], t)
      {
        SubstFixedIff(fields[k], names);
      }
      if forall t :: t in names ==> Unreferenced(node, t) {
        assert Subst(node, names).fields == fields;
      }
    case List(items) =>
      forall i | 0 <= i < |items|
        ensures Subst(items[i], names) == items[i] <==> forall t :: t in names ==> Unreferenced(items[i], t)
      {
        SubstFixedIff(items[i], names);
      }
      if forall t :: t in names ==> Unreferenced(node, t) {
        assert Subst(node, names).items == items;
      }
    case _ =>
  }

  /**
   The baseline survives a merge unchanged if and only if no container it lends to the
   result refers to a group of the merged profile.
   */
  lemma BaselineSurvivesIff(s: Json, b: Json)
    requires s.Dict? && b.Dict? && HasList(Dict(b.fields + s.fields))
    requires StringTags(Dict(b.fields + s.fields)) && !Clash(Subscription.Outbounds(Dict(b.fields + s.fields)))
    ensures Merge(s, b).Ok? && Merge(s, b).value.Dict? && b.fields.Keys <= Merge(s, b).value.fields.Keys
    ensures var groups := Subscription.Outbounds(Dict(b.fields + s.fields));
      Leaked(s, b, Merge(s, b).value) == b <==>
        forall k, t :: k in b.fields && k !in s.fields && IsContainer(b.fields[k]) && GroupTag(groups, t, |groups|) ==>
          Unreferenced(b.fields[k], t)
  {
    var top := Dict(b.fields + s.fields);
    var names := NormalizeIsSubstitution(top);
    var leaked := Leaked(s, b, Subst(top, names));
    forall k | k in b.fields && k !in s.fields && IsContainer(b.fields[k])
      ensures leaked.fields[k] == b.fields[k] <==> forall t :: t in names ==> Unreferenced(b.fields[k], t)
    {
      SubstGet(top, names, k);
      SubstFixedIff(b.fields[k], names);
    }
    if forall k :: k in b.fields ==> leaked.fields[k] == b.fields[k] {
      assert leaked.fields == b.fields;
    }
  }
}
