/** Which outbounds normalising a profile renames, told from their types and tags alone. */
module Groups {
  import opened Json
  import opened Subscription
  import opened Substitution
  import opened Wrappers

  /** An auto-select group: an outbound of type "urltest" or "selector". */
  predicate Selects(outbound: Json) {
    outbound.Dict? && (outbound.Get("type") == Str("urltest") || outbound.Get("type") == Str("selector"))
  }

  predicate Bears(outbound: Json, tag: string) {
    outbound.Dict? && outbound.Get("tag") == Str(tag)
  }

  lemma SelectsIsGroup(outbound: Json)
    ensures Selects(outbound) <==> IsGroup(outbound)
  {
  }

  /** Some group is called "urltest" or "selector" like a group's own type. */
  ghost predicate CalledLikeType(outbounds: seq<Json>) {
    exists g, o :: g in outbounds && o in outbounds && Selects(g) && Selects(o) && g.Get("tag") == o.Get("type")
  }

  lemma CalledLikeTypeIsClash(outbounds: seq<Json>)
    ensures CalledLikeType(outbounds) <==> Clash(outbounds)
  {
    if CalledLikeType(outbounds) {
      var g, o :| g in outbounds && o in outbounds && Selects(g) && Selects(o) && g.Get("tag") == o.Get("type");
      var i :| 0 <= i < |outbounds| && outbounds[i] == g;
      var j :| 0 <= j < |outbounds| && outbounds[j] == o;
      assert IsGroup(outbounds[i]) && IsGroup(outbounds[j]);
    }
  }

  /** After normalising, every group whose tag counts as one has the tag the switcher expects. */
  lemma GroupsHaveSwitchTag(profile: Json, i: nat)
    requires HasList(profile)
    ensures Normalize(profile).Ok? && HasList(Normalize(profile).value)
    ensures |Outbounds(Normalize(profile).value)| == |Outbounds(profile)|
    ensures i < |Outbounds(profile)| ==>
      var o := Outbounds(Normalize(profile).value)[i];
      Selects(o) && o.Get("tag").Truthy() ==> o.Get("tag") == Str("urltest_out")
  {
    PassSettles(profile, 0);
    if i < |Outbounds(profile)| {
      SelectsIsGroup(Outbounds(Pass(profile, 0))[i]);
    }
  }

  // --------------------------------------------------------- every group is renamed

  ghost predicate TagCounts(profile: Json, i: nat)
    requires HasList(profile)
  {
    i < |Outbounds(profile)| && Outbounds(profile)[i].Dict? && Outbounds(profile)[i].Get("tag").Truthy()
  }

  lemma VisitKeepsCounting(profile: Json, k: nat, i: nat)
    requires HasList(profile) && k < |Outbounds(profile)| && TagCounts(profile, i)
    ensures TagCounts(Visit(profile, k), i)
  {
    var o := Outbounds(profile)[k];
    if NeedsRename(o) && o.Get("tag").Str? {
      var tag := o.Get("tag").text;
      TagIsAReference(profile, k);
      ReplaceGet(profile, tag, SWITCH_TAG, "outbounds");
      ReplaceGet(Outbounds(profile)[i], tag, SWITCH_TAG, "tag");
      ReplaceFalsy(Outbounds(profile)[i].Get("tag"), tag, SWITCH_TAG);
    }
  }

  lemma {:induction false} PassKeepsGroups(profile: Json, now: Json, k: nat, i: nat)
    requires HasList(profile) && Kin(profile, now) && !Clash(Outbounds(profile)) && k <= |Outbounds(now)|
    requires TagCounts(now, i)
    ensures Kin(profile, Pass(now, k)) && TagCounts(Pass(now, k), i)
    decreases |Outbounds(now)| - k
  {
    if k < |Outbounds(now)| {
      KinVisit(profile, now, k);
      VisitKeepsCounting(now, k, i);
      PassKeepsGroups(profile, Visit(now, k), k + 1, i);
    }
  }

  /** Unless some group is called like a type, every group that had a tag ends up with that one. */
  lemma EveryGroupRenamed(profile: Json, i: nat)
    requires HasList(profile) && !CalledLikeType(Outbounds(profile))
    requires i < |Outbounds(profile)| && Selects(Outbounds(profile)[i]) && Outbounds(profile)[i].Get("tag").Truthy()
    ensures Normalize(profile).Ok? && HasList(Normalize(profile).value)
    ensures |Outbounds(Normalize(profile).value)| == |Outbounds(profile)|
    ensures Bears(Outbounds(Normalize(profile).value)[i], "urltest_out")
  {
    CalledLikeTypeIsClash(Outbounds(profile));
    PassKeepsGroups(profile, profile, 0, i);
    assert KinOutbound(Outbounds(profile)[i], Outbounds(Pass(profile, 0))[i]);
    GroupsHaveSwitchTag(profile, i);
  }

  // ------------------------------------------------------------ and nothing else is

  lemma {:induction false} CollectedAreTags(outbounds: seq<Json>, i: nat, names: set<string>, t: string)
    requires i <= |outbounds|
    ensures t in Collected(outbounds, i, names) ==> t in names || exists g :: g in outbounds && Selects(g) && Bears(g, t)
    decreases |outbounds| - i
  {
    if i < |outbounds| && t in Collected(outbounds, i, names) {
      var o, after := outbounds[i], Subst(outbounds[i], names);
      var next := if NeedsRename(after) && after.Get("tag").Str? then names + {after.Get("tag").text} else names;
      CollectedAreTags(outbounds, i + 1, next, t);
      if t in next && t !in names {
        SubstKeepsKind(o, names);
        SubstGet(o, names, "tag");
        assert o in outbounds && Selects(o) && Bears(o, t);
      }
    }
  }

  /** An outbound keeps its tag if no group bears it, under string tags. */
  lemma OtherTagsKept(profile: Json, i: nat, t: string)
    requires HasList(profile) && i < |Outbounds(profile)| && Bears(Outbounds(profile)[i], t)
    requires forall g <- Outbounds(profile) :: Selects(g) ==> g.Get("tag").Str? || !g.Get("tag").Truthy()
    requires forall g <- Outbounds(profile) :: Selects(g) ==> !Bears(g, t)
    ensures Normalize(profile).Ok? && HasList(Normalize(profile).value)
    ensures |Outbounds(Normalize(profile).value)| == |Outbounds(profile)|
    ensures Bears(Outbounds(Normalize(profile).value)[i], t)
  {
    forall g | g in Outbounds(profile) ensures Selects(g) <==> IsGroup(g) {
      SelectsIsGroup(g);
    }
    var names := Collected(Outbounds(profile), 0, {});
    SubstNothing(profile);
    PassIsSubst(profile, {}, 0);
    SubstTagged(profile, names, i);
    CollectedAreTags(Outbounds(profile), 0, {}, t);
  }
}
