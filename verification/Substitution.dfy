/** Normalising a profile is one simultaneous renaming of its group tags. */
module Substitution {
  import opened Json
  import opened Subscription
  import opened Wrappers

  function Renamed(name: string, names: set<string>): string {
    if name in names then SWITCH_TAG else name
  }

  /** Every reference to a name of `names` renamed at once. */
  function Subst(node: Json, names: set<string>): Json {
    match node
    case Dict(fields) =>
      Dict(map key | key in fields ::
             if fields[key].Str? then Str(Renamed(fields[key].text, names)) else Subst(fields[key], names))
    case List(items) => List(seq(|items|, i requires 0 <= i < |items| => Subst(items[i], names)))
    case _ => node
  }

  lemma SubstGet(node: Json, names: set<string>, key: string)
    requires node.Dict?
    ensures Subst(node, names).Get(key)
         == var v := node.Get(key); if v.Str? then Str(Renamed(v.text, names)) else Subst(v, names)
  {
  }

  lemma {:induction false} SubstNothing(node: Json)
    ensures Subst(node, {}) == node
  {
    match node
    case Dict(fields) =>
      forall key | key in fields ensures Subst(fields[key], {}) == fields[key] { SubstNothing(fields[key]); }
      assert Subst(node, {}).fields == fields;
    case List(items) =>
      forall i | 0 <= i < |items| ensures Subst(items[i], {}) == items[i] { SubstNothing(items[i]); }
      assert Subst(node, {}).items == items;
    case _ =>
  }

  lemma {:induction false} ReplaceExtends(node: Json, names: set<string>, from: string)
    requires from != SWITCH_TAG
    ensures Replace(Subst(node, names), from, SWITCH_TAG) == Subst(node, names + {from})
  {
    var left, right := Replace(Subst(node, names), from, SWITCH_TAG), Subst(node, names + {from});
    match node
    case Dict(fields) =>
      forall key | key in fields ensures left.fields[key] == right.fields[key] {
        var now := Subst(node, names).fields[key];
        assert left.fields[key] == if now == Str(from) then Str(SWITCH_TAG) else Replace(now, from, SWITCH_TAG);
        if !fields[key].Str? {
          assert now == Subst(fields[key], names) && !now.Str?;
          ReplaceExtends(fields[key], names, from);
        }
      }
      assert left.fields == right.fields;
    case List(items) =>
      forall i | 0 <= i < |items| ensures left.items[i] == right.items[i] {
        ReplaceExtends(items[i], names, from);
      }
      assert left.items == right.items;
    case _ =>
  }

  lemma SubstOutbounds(profile: Json, names: set<string>)
    requires HasList(profile)
    ensures HasList(Subst(profile, names)) && |Outbounds(Subst(profile, names))| == |Outbounds(profile)|
    ensures forall i :: 0 <= i < |Outbounds(profile)| ==>
      Outbounds(Subst(profile, names))[i] == Subst(Outbounds(profile)[i], names)
  {
    SubstGet(profile, names, "outbounds");
  }

  // ---------------------------------------------------- the pass as a substitution

  /** Every group carries a string for a tag, or nothing that counts as one. */
  ghost predicate StringTags(profile: Json)
    requires HasList(profile)
  {
    forall o <- Outbounds(profile) :: IsGroup(o) ==> o.Get("tag").Str? || !o.Get("tag").Truthy()
  }

  /** The tags the loop renames from outbound `i` on, after renaming `names`. */
  ghost function Collected(outbounds: seq<Json>, i: nat, names: set<string>): set<string>
    requires i <= |outbounds|
    decreases |outbounds| - i
  {
    if i == |outbounds| then names
    else
      var o := Subst(outbounds[i], names);
      Collected(outbounds, i + 1, if NeedsRename(o) && o.Get("tag").Str? then names + {o.Get("tag").text} else names)
  }

  lemma SubstKeepsKind(outbound: Json, names: set<string>)
    requires outbound.Dict?
    ensures IsGroup(Subst(outbound, names)) ==> IsGroup(outbound)
    ensures Subst(outbound, names).Get("tag").Str? == outbound.Get("tag").Str?
    ensures !outbound.Get("tag").Truthy() && !outbound.Get("tag").Str? ==> !Subst(outbound, names).Get("tag").Truthy()
  {
    SubstGet(outbound, names, "type");
    SubstGet(outbound, names, "tag");
    assert SWITCH_TAG != "urltest" && SWITCH_TAG != "selector";
    match outbound.Get("tag")
    case Dict(fields) =>
    case _ =>
  }

  lemma TagIsAReference(profile: Json, i: nat)
    requires HasList(profile) && i < |Outbounds(profile)| && NeedsRename(Outbounds(profile)[i])
    requires Outbounds(profile)[i].Get("tag").Str?
    ensures Visit(profile, i) == Replace(profile, Outbounds(profile)[i].Get("tag").text, SWITCH_TAG)
  {
    var o := Outbounds(profile)[i];
    var tag := o.Get("tag").text;
    var tagged := WithTag(profile, i);
    var left, right := Replace(tagged, tag, SWITCH_TAG), Replace(profile, tag, SWITCH_TAG);
    assert Replace(Outbounds(tagged)[i], tag, SWITCH_TAG).fields == Replace(o, tag, SWITCH_TAG).fields;
    assert Replace(List(Outbounds(tagged)), tag, SWITCH_TAG).items
        == Replace(List(Outbounds(profile)), tag, SWITCH_TAG).items;
    assert left.fields == right.fields;
  }

  lemma {:induction false} PassIsSubst(profile: Json, names: set<string>, i: nat)
    requires HasList(profile) && StringTags(profile) && i <= |Outbounds(profile)|
    ensures HasList(Subst(profile, names)) && |Outbounds(Subst(profile, names))| == |Outbounds(profile)|
    ensures Pass(Subst(profile, names), i) == Subst(profile, Collected(Outbounds(profile), i, names))
    decreases |Outbounds(profile)| - i
  {
    SubstOutbounds(profile, names);
    if i < |Outbounds(profile)| {
      var now := Subst(profile, names);
      var o := Outbounds(now)[i];
      if NeedsRename(o) {
        SubstKeepsKind(Outbounds(profile)[i], names);
        assert Outbounds(profile)[i] in Outbounds(profile);
        var tag := o.Get("tag").text;
        TagIsAReference(now, i);
        ReplaceExtends(profile, names, tag);
        PassIsSubst(profile, names + {tag}, i + 1);
      } else {
        PassIsSubst(profile, names, i + 1);
      }
    }
  }

  ghost predicate GroupTag(outbounds: seq<Json>, t: string, n: nat)
    requires n <= |outbounds|
  {
    t != "" && t != SWITCH_TAG && exists i :: 0 <= i < n && IsGroup(outbounds[i]) && outbounds[i].Get("tag") == Str(t)
  }

  /** A group is called like the type of a group. */
  ghost predicate Clash(outbounds: seq<Json>) {
    exists i, j :: 0 <= i < |outbounds| && 0 <= j < |outbounds| && IsGroup(outbounds[i]) && IsGroup(outbounds[j])
                && outbounds[i].Get("tag") == outbounds[j].Get("type")
  }

  ghost predicate GroupOfType(outbounds: seq<Json>, t: string) {
    exists j :: 0 <= j < |outbounds| && IsGroup(outbounds[j]) && outbounds[j].Get("type") == Str(t)
  }

  lemma ClashByTag(outbounds: seq<Json>, t: string, n: nat)
    requires n <= |outbounds| && GroupTag(outbounds, t, n) && GroupOfType(outbounds, t)
    ensures Clash(outbounds)
  {
    var i :| 0 <= i < n && IsGroup(outbounds[i]) && outbounds[i].Get("tag") == Str(t);
    var j :| 0 <= j < |outbounds| && IsGroup(outbounds[j]) && outbounds[j].Get("type") == Str(t);
    assert outbounds[i].Get("tag") == outbounds[j].Get("type");
  }

  /** One more outbound: its tag joins the names if and only if it is a group still known as one. */
  lemma CollectStep(outbounds: seq<Json>, i: nat, names: set<string>) returns (next: set<string>)
    requires i < |outbounds|
    requires forall t :: t in names ==> GroupTag(outbounds, t, i)
    requires forall t :: t in names ==> !GroupOfType(outbounds, t)
    requires forall t :: GroupTag(outbounds, t, i) ==> t in names
    ensures Collected(outbounds, i, names) == Collected(outbounds, i + 1, next) && names <= next
    ensures forall t :: t in next <==> GroupTag(outbounds, t, i + 1)
  {
    var o, after := outbounds[i], Subst(outbounds[i], names);
    next := if NeedsRename(after) && after.Get("tag").Str? then names + {after.Get("tag").text} else names;
    if o.Dict? {
      SubstKeepsKind(o, names);
      SubstGet(o, names, "tag");
      SubstGet(o, names, "type");
      if IsGroup(o) {
        assert GroupOfType(outbounds, o.Get("type").text);
        assert IsGroup(after);
      }
    }
    forall t ensures t in next <==> GroupTag(outbounds, t, i + 1) {
      if t in names {
        assert GroupTag(outbounds, t, i);
      }
    }
  }

  lemma {:induction false} CollectedAreGroupTags(outbounds: seq<Json>, i: nat, names: set<string>)
    requires i <= |outbounds| && !Clash(outbounds)
    requires forall t :: t in names <==> GroupTag(outbounds, t, i)
    ensures forall t :: t in Collected(outbounds, i, names) <==> GroupTag(outbounds, t, |outbounds|)
    decreases |outbounds| - i
  {
    if i < |outbounds| {
      forall t | t in names ensures !GroupOfType(outbounds, t) {
        if GroupOfType(outbounds, t) {
          ClashByTag(outbounds, t, i);
        }
      }
      var next := CollectStep(outbounds, i, names);
      CollectedAreGroupTags(outbounds, i + 1, next);
    }
  }

  /**
   The whole loop is one substitution: the tags of the groups, and nothing else, become
   the switch tag wherever a dictionary refers to them.
   */
  lemma NormalizeIsSubstitution(profile: Json) returns (names: set<string>)
    requires HasList(profile) && StringTags(profile) && !Clash(Outbounds(profile))
    ensures forall t :: t in names <==> GroupTag(Outbounds(profile), t, |Outbounds(profile)|)
    ensures Normalize(profile) == Ok(Subst(profile, names))
    ensures SWITCH_TAG !in names
  {
    SubstNothing(profile);
    PassIsSubst(profile, {}, 0);
    names := Collected(Outbounds(profile), 0, {});
    CollectedAreGroupTags(Outbounds(profile), 0, {});
  }

  // ---------------------------------------------------------- what references mean

  datatype Step = Key(key: string) | Index(index: nat)

  function At(node: Json, path: seq<Step>): Option<Json> {
    if path == [] then Some(node)
    else
      match path[0]
      case Key(key) => if node.Dict? && key in node.fields then At(node.fields[key], path[1..]) else None
      case Index(i) => if node.List? && i < |node.items| then At(node.items[i], path[1..]) else None
  }

  /** Does the path end in a dictionary field? */
  predicate InField(path: seq<Step>) {
    path != [] && path[|path| - 1].Key?
  }

  lemma {:induction false} SubstAt(node: Json, names: set<string>, path: seq<Step>, text: string)
    requires At(node, path) == Some(Str(text))
    ensures At(Subst(node, names), path) == Some(Str(if InField(path) then Renamed(text, names) else text))
    decreases |path|
  {
    if path != [] {
      match path[0]
      case Key(key) =>
        SubstGet(node, names, key);
        if |path| > 1 {
          assert !node.fields[key].Str?;
          SubstAt(node.fields[key], names, path[1..], text);
        }
      case Index(i) => SubstAt(node.items[i], names, path[1..], text);
    }
  }

  ghost predicate Tagged(profile: Json, i: nat, t: string)
    requires HasList(profile)
  {
    i < |Outbounds(profile)| && Outbounds(profile)[i].Dict? && Outbounds(profile)[i].Get("tag") == Str(t)
  }

  lemma SubstTagged(profile: Json, names: set<string>, i: nat)
    requires HasList(profile) && i < |Outbounds(profile)| && Outbounds(profile)[i].Dict?
    ensures HasList(Subst(profile, names)) && i < |Outbounds(Subst(profile, names))|
    ensures Outbounds(Subst(profile, names))[i].Dict?
    ensures var tag := Outbounds(profile)[i].Get("tag");
      if tag.Str? then Tagged(Subst(profile, names), i, Renamed(tag.text, names))
      else !Outbounds(Subst(profile, names))[i].Get("tag").Str?
  {
    SubstOutbounds(profile, names);
    SubstGet(Outbounds(profile)[i], names, "tag");
    SubstKeepsKind(Outbounds(profile)[i], names);
  }

  /** The path leads through the tag of a group, which is then a list or dictionary itself. */
  predicate InsideGroupTag(profile: Json, path: seq<Step>)
    requires HasList(profile)
  {
    && |path| > 3 && path[0] == Key("outbounds") && path[1].Index? && path[2] == Key("tag")
    && path[1].index < |Outbounds(profile)| && IsGroup(Outbounds(profile)[path[1].index])
  }

  lemma RetaggedAt(outbound: Json, path: seq<Step>, t: string)
    requires outbound.Dict? && !outbound.Get("tag").Str?
    requires path != [] && At(outbound, path) == Some(Str(t)) && (path[0] == Key("tag") ==> |path| == 1)
    ensures At(Dict(outbound.fields["tag" := Str(SWITCH_TAG)]), path) == Some(Str(t))
  {
    var key := path[0].key;
    assert At(outbound, path) == At(outbound.fields[key], path[1..]);
    assert |path| == 1 ==> At(outbound.fields[key], path[1..]) == Some(outbound.fields[key]);
    assert key != "tag";
  }

  /** Setting a tag that was no string disturbs no string outside that tag. */
  lemma WithTagAt(profile: Json, k: nat, path: seq<Step>, t: string)
    requires HasList(profile) && k < |Outbounds(profile)| && Outbounds(profile)[k].Dict?
    requires !Outbounds(profile)[k].Get("tag").Str? && IsGroup(Outbounds(profile)[k])
    requires path != [] && !InsideGroupTag(profile, path) && At(profile, path) == Some(Str(t))
    ensures At(WithTag(profile, k), path) == Some(Str(t))
  {
    var items := Outbounds(profile);
    if path[0] == Key("outbounds") {
      var rest := path[1..];
      assert At(profile, path) == At(List(items), rest);
      if rest[0] == Index(k) {
        var inner := rest[1..];
        assert At(List(items), rest) == At(items[k], inner);
        var renamed := Outbounds(WithTag(profile, k));
        assert At(WithTag(profile, k), path) == At(List(renamed), rest);
        assert At(List(renamed), rest) == At(renamed[k], inner);
        assert inner != [] && inner[0] == path[2];
        RetaggedAt(items[k], inner, t);
      }
    }
  }

  /** Renaming makes no new group. */
  lemma GroupsAreOld(profile: Json, names: set<string>)
    requires HasList(profile)
    ensures HasList(Subst(profile, names)) && |Outbounds(Subst(profile, names))| == |Outbounds(profile)|
    ensures forall j :: 0 <= j < |Outbounds(profile)| && IsGroup(Outbounds(Subst(profile, names))[j]) ==>
      IsGroup(Outbounds(profile)[j])
  {
    SubstOutbounds(profile, names);
    forall j | 0 <= j < |Outbounds(profile)| && IsGroup(Outbounds(Subst(profile, names))[j])
      ensures IsGroup(Outbounds(profile)[j])
    {
      SubstKeepsKind(Outbounds(profile)[j], names);
    }
  }

  lemma VisitFollows(profile: Json, k: nat, path: seq<Step>, t: string, i: nat) returns (u: string)
    requires HasList(profile) && k < |Outbounds(profile)|
    requires InField(path) && !InsideGroupTag(profile, path) && At(profile, path) == Some(Str(t)) && Tagged(profile, i, t)
    ensures !InsideGroupTag(Visit(profile, k), path)
    ensures At(Visit(profile, k), path) == Some(Str(u)) && Tagged(Visit(profile, k), i, u)
  {
    u := t;
    if NeedsRename(Outbounds(profile)[k]) {
      var tag := Outbounds(profile)[k].Get("tag");
      if tag.Str? {
        TagIsAReference(profile, k);
        SubstNothing(profile);
        ReplaceExtends(profile, {}, tag.text);
        assert {} + {tag.text} == {tag.text};
        SubstAt(profile, {tag.text}, path, t);
        SubstTagged(profile, {tag.text}, i);
        GroupsAreOld(profile, {tag.text});
        u := Renamed(t, {tag.text});
      } else {
        WithTagAt(profile, k, path, t);
      }
    }
  }

  lemma {:induction false} PassFollows(profile: Json, k: nat, path: seq<Step>, t: string, i: nat) returns (u: string)
    requires HasList(profile) && k <= |Outbounds(profile)|
    requires InField(path) && !InsideGroupTag(profile, path) && At(profile, path) == Some(Str(t)) && Tagged(profile, i, t)
    ensures At(Pass(profile, k), path) == Some(Str(u)) && Tagged(Pass(profile, k), i, u)
    decreases |Outbounds(profile)| - k
  {
    u := t;
    if k < |Outbounds(profile)| {
      u := VisitFollows(profile, k, path, t, i);
      u := PassFollows(Visit(profile, k), k + 1, path, u, i);
    }
  }

  /**
   A dictionary field naming an outbound still names that outbound, anywhere in any profile
   except inside the tag of a group, where no name belongs.
   */
  lemma FieldReferencesFollow(profile: Json, path: seq<Step>, t: string, i: nat)
    requires HasList(profile)
    requires InField(path) && !InsideGroupTag(profile, path) && At(profile, path) == Some(Str(t)) && Tagged(profile, i, t)
    ensures Normalize(profile).Ok? && HasList(Normalize(profile).value)
    ensures exists u :: At(Normalize(profile).value, path) == Some(Str(u)) && Tagged(Normalize(profile).value, i, u)
  {
    var u := PassFollows(profile, 0, path, t, i);
  }

  /** How far a profile may have come: groups are the old ones, and tags the old ones or the switch tag. */
  ghost predicate Kin(profile: Json, now: Json)
    requires HasList(profile)
  {
    && HasList(now) && |Outbounds(now)| == |Outbounds(profile)|
    && forall j :: 0 <= j < |Outbounds(profile)| ==> KinOutbound(Outbounds(profile)[j], Outbounds(now)[j])
  }

  ghost predicate KinOutbound(o: Json, now: Json) {
    && (IsGroup(o) ==> now.Dict? && now.Get("type") == o.Get("type"))
    && (IsGroup(now) ==> IsGroup(o))
    && (now.Dict? && now.Get("tag").Str? && now.Get("tag") != Str(SWITCH_TAG) ==> o.Dict? && o.Get("tag") == now.Get("tag"))
  }

  lemma KinReplaced(profile: Json, o: Json, now: Json, tag: string)
    requires HasList(profile) && o in Outbounds(profile) && KinOutbound(o, now) && tag != SWITCH_TAG
    requires !Clash(Outbounds(profile)) && exists g :: g in Outbounds(profile) && IsGroup(g) && g.Get("tag") == Str(tag)
    ensures KinOutbound(o, Replace(now, tag, SWITCH_TAG))
  {
    if now.Dict? {
      ReplaceGet(now, tag, SWITCH_TAG, "type");
      ReplaceGet(now, tag, SWITCH_TAG, "tag");
      assert SWITCH_TAG != "urltest" && SWITCH_TAG != "selector";
    }
  }

  lemma KinVisit(profile: Json, now: Json, k: nat)
    requires HasList(profile) && Kin(profile, now) && k < |Outbounds(now)| && !Clash(Outbounds(profile))
    ensures Kin(profile, Visit(now, k))
  {
    var o := Outbounds(now)[k];
    if NeedsRename(o) && o.Get("tag").Str? {
      var tag := o.Get("tag").text;
      TagIsAReference(now, k);
      ReplaceGet(now, tag, SWITCH_TAG, "outbounds");
      assert KinOutbound(Outbounds(profile)[k], o) && Outbounds(profile)[k] in Outbounds(profile);
      forall j | 0 <= j < |Outbounds(now)|
        ensures KinOutbound(Outbounds(profile)[j], Replace(Outbounds(now)[j], tag, SWITCH_TAG))
      {
        KinReplaced(profile, Outbounds(profile)[j], Outbounds(now)[j], tag);
      }
    } else if NeedsRename(o) {
      assert KinOutbound(Outbounds(profile)[k], Outbounds(WithTag(now, k))[k]);
    }
  }

  /** The tag of outbound `i` is a list or dictionary with something in it. */
  ghost predicate NestedTag(profile: Json, i: nat)
    requires HasList(profile)
  {
    && i < |Outbounds(profile)| && Outbounds(profile)[i].Dict?
    && (var tag := Outbounds(profile)[i].Get("tag"); (tag.List? || tag.Dict?) && tag.Truthy())
  }

  lemma VisitKeepsTag(profile: Json, k: nat, i: nat)
    requires HasList(profile) && k < |Outbounds(profile)| && i < |Outbounds(profile)| && Outbounds(profile)[i].Dict?
    ensures NestedTag(profile, i) && k != i ==> NestedTag(Visit(profile, k), i)
    ensures Tagged(profile, i, SWITCH_TAG) ==> Tagged(Visit(profile, k), i, SWITCH_TAG)
  {
    var o := Outbounds(profile)[k];
    if NeedsRename(o) && o.Get("tag").Str? {
      var tag := o.Get("tag").text;
      TagIsAReference(profile, k);
      ReplaceGet(profile, tag, SWITCH_TAG, "outbounds");
      ReplaceGet(Outbounds(profile)[i], tag, SWITCH_TAG, "tag");
      ReplaceFalsy(Outbounds(profile)[i].Get("tag"), tag, SWITCH_TAG);
    }
  }

  lemma {:induction false} NestedTagOverwritten(profile: Json, now: Json, k: nat, i: nat)
    requires HasList(profile) && Kin(profile, now) && !Clash(Outbounds(profile)) && k <= |Outbounds(now)|
    requires i < |Outbounds(profile)| && IsGroup(Outbounds(profile)[i])
    requires if k <= i then NestedTag(now, i) else Tagged(now, i, SWITCH_TAG)
    ensures Tagged(Pass(now, k), i, SWITCH_TAG)
    decreases |Outbounds(now)| - k
  {
    if k < |Outbounds(now)| {
      assert KinOutbound(Outbounds(profile)[i], Outbounds(now)[i]);
      KinVisit(profile, now, k);
      VisitKeepsTag(now, k, i);
      if k == i {
        assert NeedsRename(Outbounds(now)[i]);
        assert Tagged(Visit(now, k), i, SWITCH_TAG);
      }
      NestedTagOverwritten(profile, Visit(now, k), k + 1, i);
    }
  }

  /** Inside the tag of a group a reference is lost, the tag itself being replaced, unless a clash spares the group. */
  lemma ReferencesInGroupTagsLost(profile: Json, path: seq<Step>, t: string)
    requires HasList(profile) && !Clash(Outbounds(profile))
    requires InsideGroupTag(profile, path) && At(profile, path) == Some(Str(t))
    ensures Normalize(profile).Ok? && At(Normalize(profile).value, path) == None
  {
    var i := path[1].index;
    var o := Outbounds(profile)[i];
    assert At(profile, path) == At(List(Outbounds(profile)), path[1..]) == At(o, path[1..][1..]);
    assert path[1..][1..][0] == Key("tag");
    assert At(o, path[1..][1..]) == At(o.Get("tag"), path[1..][1..][1..]);
    assert |path[1..][1..][1..]| == |path| - 3;
    assert NestedTag(profile, i);
    NestedTagOverwritten(profile, profile, 0, i);
    TaggedIsLeaf(Pass(profile, 0), path, i);
  }

  lemma TaggedIsLeaf(profile: Json, path: seq<Step>, i: nat)
    requires HasList(profile) && Tagged(profile, i, SWITCH_TAG)
    requires |path| > 3 && path[0] == Key("outbounds") && path[1] == Index(i) && path[2] == Key("tag")
    ensures At(profile, path) == None
  {
    var o := Outbounds(profile)[i];
    assert At(profile, path) == At(List(Outbounds(profile)), path[1..]);
    assert At(List(Outbounds(profile)), path[1..]) == At(o, path[1..][1..]);
    assert path[1..][1..][0] == Key("tag");
    assert At(o, path[1..][1..]) == At(o.Get("tag"), path[1..][1..][1..]);
    assert path[1..][1..][1..] != [];
  }

  /** A list element naming an outbound is left as it is, and dangles exactly when a group had that name. */
  lemma ListReferencesDangleIff(profile: Json, path: seq<Step>, t: string, i: nat)
    requires HasList(profile) && StringTags(profile) && !Clash(Outbounds(profile))
    requires !InField(path) && At(profile, path) == Some(Str(t)) && Tagged(profile, i, t)
    ensures Normalize(profile).Ok? && HasList(Normalize(profile).value)
    ensures At(Normalize(profile).value, path) == Some(Str(t))
    ensures (forall j :: !Tagged(Normalize(profile).value, j, t))
       <==> GroupTag(Outbounds(profile), t, |Outbounds(profile)|)
  {
    var names := NormalizeIsSubstitution(profile);
    SubstAt(profile, names, path, t);
    SubstOutbounds(profile, names);
    SubstTagged(profile, names, i);
    var after := Subst(profile, names);
    forall j: nat | t in names ensures !Tagged(after, j, t) {
      if j < |Outbounds(profile)| {
        OutboundAfter(profile, names, j);
      }
    }
  }

  lemma OutboundAfter(profile: Json, names: set<string>, i: nat)
    requires HasList(profile) && i < |Outbounds(profile)|
    ensures HasList(Subst(profile, names))
    ensures forall u :: Tagged(Subst(profile, names), i, u) ==>
      exists t :: Tagged(profile, i, t) && u == Renamed(t, names)
    ensures forall t :: Tagged(profile, i, t) ==> Tagged(Subst(profile, names), i, Renamed(t, names))
  {
    SubstOutbounds(profile, names);
    if Outbounds(profile)[i].Dict? {
      SubstTagged(profile, names, i);
    }
  }

  lemma MergedIff(profile: Json, names: set<string>, i: nat)
    requires HasList(profile) && i < |Outbounds(profile)|
    requires forall t :: t in names <==> GroupTag(Outbounds(profile), t, |Outbounds(profile)|)
    ensures HasList(Subst(profile, names))
    ensures Merged(profile, i) <==> Tagged(Subst(profile, names), i, SWITCH_TAG)
  {
    OutboundAfter(profile, names, i);
    if Merged(profile, i) {
      var t :| Tagged(profile, i, t) && (t == SWITCH_TAG || GroupTag(Outbounds(profile), t, |Outbounds(profile)|));
      assert Renamed(t, names) == SWITCH_TAG;
    }
    if Tagged(Subst(profile, names), i, SWITCH_TAG) {
      var t :| Tagged(profile, i, t) && SWITCH_TAG == Renamed(t, names);
      assert Tagged(profile, i, t);
    }
  }

  ghost predicate TagsDistinct(profile: Json)
    requires HasList(profile)
  {
    forall i, j, t :: i != j && Tagged(profile, i, t) ==> !Tagged(profile, j, t)
  }

  /** The tag of some outbound that ends up as the switch tag. */
  ghost predicate Merged(profile: Json, i: nat)
    requires HasList(profile)
  {
    exists t :: Tagged(profile, i, t) && (t == SWITCH_TAG || GroupTag(Outbounds(profile), t, |Outbounds(profile)|))
  }

  /** Distinct outbounds stay distinct if and only if at most one of them ends up with the switch tag. */
  lemma TagsStayDistinctIff(profile: Json)
    requires HasList(profile) && StringTags(profile) && !Clash(Outbounds(profile)) && TagsDistinct(profile)
    ensures Normalize(profile).Ok? && HasList(Normalize(profile).value)
    ensures TagsDistinct(Normalize(profile).value)
       <==> forall i, j :: Merged(profile, i) && Merged(profile, j) ==> i == j
  {
    var names := NormalizeIsSubstitution(profile);
    var after := Subst(profile, names);
    SubstOutbounds(profile, names);
    forall i: nat
      ensures Merged(profile, i) == Tagged(after, i, SWITCH_TAG)
    {
      if i < |Outbounds(profile)| {
        MergedIff(profile, names, i);
      }
    }
    if forall i, j :: Merged(profile, i) && Merged(profile, j) ==> i == j {
      forall i: nat, j: nat, t | i != j && Tagged(after, i, t) ensures !Tagged(after, j, t) {
        if t == SWITCH_TAG {
          assert Merged(profile, i);
        } else {
          OutboundAfter(profile, names, i);
          if j < |Outbounds(profile)| {
            OutboundAfter(profile, names, j);
          }
        }
      }
    }
  }

  // ------------------------------------------------------------ groups as groups

  ghost predicate GroupsStay(before: seq<Json>, after: seq<Json>)
    requires |before| == |after|
  {
    forall i :: 0 <= i < |before| && IsGroup(before[i]) ==> IsGroup(after[i])
  }

  lemma {:induction false} CollectedGrows(outbounds: seq<Json>, i: nat, names: set<string>)
    requires i <= |outbounds|
    ensures names <= Collected(outbounds, i, names)
    decreases |outbounds| - i
  {
    if i < |outbounds| {
      var o := Subst(outbounds[i], names);
      CollectedGrows(outbounds, i + 1, if NeedsRename(o) && o.Get("tag").Str? then names + {o.Get("tag").text} else names);
    }
  }

  /** When no group's type is renamed, every group's tag is. */
  lemma {:induction false} CollectedCovers(outbounds: seq<Json>, i: nat, names: set<string>)
    requires i <= |outbounds|
    requires forall t :: t in names <==> GroupTag(outbounds, t, i)
    requires forall t :: t in Collected(outbounds, i, names) ==> !GroupOfType(outbounds, t)
    ensures forall t :: GroupTag(outbounds, t, |outbounds|) ==> t in Collected(outbounds, i, names)
    decreases |outbounds| - i
  {
    if i < |outbounds| {
      CollectedGrows(outbounds, i, names);
      var next := CollectStep(outbounds, i, names);
      CollectedCovers(outbounds, i + 1, next);
    }
  }

  lemma CollectedSparesTypesIff(outbounds: seq<Json>)
    ensures (forall t :: t in Collected(outbounds, 0, {}) ==> !GroupOfType(outbounds, t)) <==> !Clash(outbounds)
  {
    var names := Collected(outbounds, 0, {});
    if !Clash(outbounds) {
      CollectedAreGroupTags(outbounds, 0, {});
      forall t | t in names ensures !GroupOfType(outbounds, t) {
        assert GroupTag(outbounds, t, |outbounds|);
      }
    } else if forall t :: t in names ==> !GroupOfType(outbounds, t) {
      var i, j :| 0 <= i < |outbounds| && 0 <= j < |outbounds| && IsGroup(outbounds[i]) && IsGroup(outbounds[j])
               && outbounds[i].Get("tag") == outbounds[j].Get("type");
      var t := outbounds[j].Get("type").text;
      assert GroupTag(outbounds, t, |outbounds|) && GroupOfType(outbounds, t);
      CollectedCovers(outbounds, 0, {});
    }
  }

  lemma StaysIff(outbound: Json, names: set<string>)
    requires IsGroup(outbound)
    ensures IsGroup(Subst(outbound, names)) <==> outbound.Get("type").text !in names
  {
    SubstGet(outbound, names, "type");
    assert SWITCH_TAG != "urltest" && SWITCH_TAG != "selector";
  }

  /** Renaming leaves every group a group if and only if no group is called like the type of one. */
  lemma GroupsStayGroupsIff(profile: Json)
    requires HasList(profile) && StringTags(profile)
    ensures Normalize(profile).Ok? && HasList(Normalize(profile).value)
    ensures |Outbounds(Normalize(profile).value)| == |Outbounds(profile)|
    ensures GroupsStay(Outbounds(profile), Outbounds(Normalize(profile).value)) <==> !Clash(Outbounds(profile))
  {
    var items := Outbounds(profile);
    var names := Collected(items, 0, {});
    SubstNothing(profile);
    PassIsSubst(profile, {}, 0);
    SubstOutbounds(profile, names);
    CollectedSparesTypesIff(items);
    GroupsStayIff(items, Outbounds(Subst(profile, names)), names);
  }

  lemma GroupsStayIff(before: seq<Json>, after: seq<Json>, names: set<string>)
    requires |after| == |before| && forall i :: 0 <= i < |before| ==> after[i] == Subst(before[i], names)
    ensures GroupsStay(before, after) <==> forall t :: t in names ==> !GroupOfType(before, t)
  {
    forall i | 0 <= i < |before| && IsGroup(before[i])
      ensures IsGroup(after[i]) <==> before[i].Get("type").text !in names
    {
      StaysIff(before[i], names);
    }
    forall t | t in names && GroupOfType(before, t) ensures !GroupsStay(before, after) {
      var j :| 0 <= j < |before| && IsGroup(before[j]) && before[j].Get("type") == Str(t);
    }
    forall i | 0 <= i < |before| && IsGroup(before[i]) ensures GroupOfType(before, before[i].Get("type").text) {
    }
  }
}
