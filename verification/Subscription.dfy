/** Merging a provider subscription onto the baseline and renaming its auto-select group. */
module Subscription {
  import opened Json
  import opened Wrappers

  const SELECTOR_TYPES: set<Json> := {Str("urltest"), Str("selector")}
  const SWITCH_TAG := "urltest_out"

  datatype Error = TypeMismatch

  // ------------------------------------------------------------- the operations

  /** `_replace_refs`: every dictionary value equal to `from` becomes `to`; list elements do not. */
  function Replace(node: Json, from: string, to: string): Json {
    match node
    case Dict(fields) =>
      Dict(map key | key in fields :: if fields[key] == Str(from) then Str(to) else Replace(fields[key], from, to))
    case List(items) => List(seq(|items|, i requires 0 <= i < |items| => Replace(items[i], from, to)))
    case _ => node
  }

  /** What a dictionary answers for a key after a replacement. */
  lemma ReplaceGet(node: Json, from: string, to: string, key: string)
    requires node.Dict?
    ensures Replace(node, from, to).Get(key)
         == if node.Get(key) == Str(from) then Str(to) else Replace(node.Get(key), from, to)
  {
  }

  predicate IsGroup(outbound: Json) {
    outbound.Dict? && outbound.Get("type") in SELECTOR_TYPES
  }

  /** The outbound is a group whose tag is not yet the one the switcher expects. */
  predicate NeedsRename(outbound: Json) {
    IsGroup(outbound) && outbound.Get("tag").Truthy() && outbound.Get("tag") != Str(SWITCH_TAG)
  }

  predicate HasList(profile: Json) {
    profile.Dict? && profile.Get("outbounds").List?
  }

  function Outbounds(profile: Json): seq<Json>
    requires HasList(profile)
  {
    profile.Get("outbounds").items
  }

  function WithTag(profile: Json, i: nat): Json
    requires HasList(profile) && i < |Outbounds(profile)| && Outbounds(profile)[i].Dict?
  {
    var outbound := Outbounds(profile)[i];
    var renamed := Dict(outbound.fields["tag" := Str(SWITCH_TAG)]);
    Dict(profile.fields["outbounds" := List(Outbounds(profile)[i := renamed])])
  }

  /** One turn of the loop over the outbounds; a tag that is no string has no reference. */
  function Visit(profile: Json, i: nat): (r: Json)
    requires HasList(profile) && i < |Outbounds(profile)|
    ensures HasList(r) && |Outbounds(r)| == |Outbounds(profile)|
  {
    var outbound := Outbounds(profile)[i];
    if !NeedsRename(outbound) then profile
    else
      var tag := outbound.Get("tag");
      ReplaceGet(WithTag(profile, i), if tag.Str? then tag.text else "", SWITCH_TAG, "outbounds");
      if tag.Str? then Replace(WithTag(profile, i), tag.text, SWITCH_TAG) else WithTag(profile, i)
  }

  function Pass(profile: Json, i: nat): (r: Json)
    requires HasList(profile) && i <= |Outbounds(profile)|
    ensures HasList(r) && |Outbounds(r)| == |Outbounds(profile)|
    decreases |Outbounds(profile)| - i
  {
    if i == |Outbounds(profile)| then profile else Pass(Visit(profile, i), i + 1)
  }

  /** Strings and dictionaries iterate over strings, which the loop skips; other values do not iterate. */
  function Normalize(profile: Json): Result<Json, Error>
    requires profile.Dict?
  {
    if "outbounds" !in profile.fields then Ok(profile)
    else
      match profile.fields["outbounds"]
      case List(_) => Ok(Pass(profile, 0))
      case Str(_) => Ok(profile)
      case Dict(_) => Ok(profile)
      case _ => Err(TypeMismatch)
  }

  function Merge(subscription: Json, baseline: Json): Result<Json, Error>
    requires subscription.Dict? && baseline.Dict?
  {
    Normalize(Dict(baseline.fields + subscription.fields))
  }

  /** Normalising fails exactly on outbounds that do not iterate, and on other values than lists there is nothing to do. */
  lemma NormalizeFailsIff(profile: Json)
    requires profile.Dict?
    ensures Normalize(profile).Err? <==>
      "outbounds" in profile.fields && (profile.Get("outbounds").Null? || profile.Get("outbounds").Bool? || profile.Get("outbounds").Num?)
    ensures Normalize(profile).Ok? && !profile.Get("outbounds").List? ==> Normalize(profile).value == profile
  {
  }

  /** The subscription's keys win, and the baseline supplies the rest. */
  lemma MergeOverlays(subscription: Json, baseline: Json) returns (overlay: Json)
    requires subscription.Dict? && baseline.Dict?
    ensures overlay.Dict? && overlay.fields.Keys == subscription.fields.Keys + baseline.fields.Keys
    ensures forall key <- subscription.fields :: overlay.fields[key] == subscription.fields[key]
    ensures forall key <- baseline.fields :: key !in subscription.fields ==> overlay.fields[key] == baseline.fields[key]
    ensures Merge(subscription, baseline) == Normalize(overlay)
  {
    overlay := Dict(baseline.fields + subscription.fields);
  }

  // ---------------------------------------------------- what one replacement does

  /** No dictionary anywhere in the tree holds `name` as a value. */
  ghost predicate Unreferenced(node: Json, name: string) {
    match node
    case Dict(fields) => forall key <- fields :: fields[key] != Str(name) && Unreferenced(fields[key], name)
    case List(items) => forall i :: 0 <= i < |items| ==> Unreferenced(items[i], name)
    case _ => true
  }

  /** The trees agree except where a dictionary value `from` in one is `to` in the other. */
  ghost predicate Differs(before: Json, after: Json, from: string, to: string) {
    match before
    case Dict(fields) =>
      && after.Dict? && after.fields.Keys == fields.Keys
      && forall key <- fields ::
           if fields[key] == Str(from) then after.fields[key] == Str(to)
           else Differs(fields[key], after.fields[key], from, to)
    case List(items) =>
      && after.List? && |after.items| == |items|
      && forall i :: 0 <= i < |items| ==> Differs(items[i], after.items[i], from, to)
    case _ => after == before
  }

  lemma {:induction false} ReplaceRemoves(node: Json, from: string, to: string)
    requires from != to
    ensures Unreferenced(Replace(node, from, to), from)
  {
    match node
    case Dict(fields) =>
      forall key | key in fields ensures Unreferenced(Replace(fields[key], from, to), from) {
        ReplaceRemoves(fields[key], from, to);
      }
    case List(items) =>
      forall i | 0 <= i < |items| ensures Unreferenced(Replace(items[i], from, to), from) {
        ReplaceRemoves(items[i], from, to);
      }
    case _ =>
  }

  lemma {:induction false} ReplaceTouchesReferencesOnly(node: Json, from: string, to: string)
    ensures Differs(node, Replace(node, from, to), from, to)
  {
    match node
    case Dict(fields) =>
      forall key | key in fields && fields[key] != Str(from)
        ensures Differs(fields[key], Replace(fields[key], from, to), from, to)
      {
        ReplaceTouchesReferencesOnly(fields[key], from, to);
      }
    case List(items) =>
      forall i | 0 <= i < |items| ensures Differs(items[i], Replace(items[i], from, to), from, to) {
        ReplaceTouchesReferencesOnly(items[i], from, to);
      }
    case _ =>
  }

  // ----------------------------------------------------------------- idempotence

  /** The first `n` outbounds need no renaming. */
  ghost predicate SettledUpTo(profile: Json, n: nat)
    requires HasList(profile) && n <= |Outbounds(profile)|
  {
    forall i :: 0 <= i < n ==> !NeedsRename(Outbounds(profile)[i])
  }

  /** A rename may hit the `type` or `tag` of other outbounds, but makes no new work. */
  lemma ReplaceKeepsSettled(outbound: Json, tag: string)
    requires tag != "" && tag != SWITCH_TAG && !NeedsRename(outbound)
    ensures !NeedsRename(Replace(outbound, tag, SWITCH_TAG))
  {
    if outbound.Dict? {
      ReplaceGet(outbound, tag, SWITCH_TAG, "type");
      ReplaceGet(outbound, tag, SWITCH_TAG, "tag");
      ReplaceFalsy(outbound.Get("tag"), tag, SWITCH_TAG);
      assert SWITCH_TAG != "urltest" && SWITCH_TAG != "selector";
    }
  }

  lemma ReplaceFalsy(node: Json, from: string, to: string)
    ensures Replace(node, from, to).Truthy() == node.Truthy()
  {
    match node
    case Dict(fields) =>
      if fields != map[] {
        var key :| key in fields;
        assert key in Replace(node, from, to).fields;
      }
    case _ =>
  }

  lemma VisitSettles(profile: Json, i: nat)
    requires HasList(profile) && i < |Outbounds(profile)| && SettledUpTo(profile, i)
    ensures SettledUpTo(Visit(profile, i), i + 1)
  {
    var outbound := Outbounds(profile)[i];
    if NeedsRename(outbound) {
      var tag := outbound.Get("tag");
      var tagged := WithTag(profile, i);
      assert SettledUpTo(tagged, i + 1);
      if tag.Str? {
        ReplaceGet(tagged, tag.text, SWITCH_TAG, "outbounds");
        forall j | 0 <= j <= i ensures !NeedsRename(Replace(Outbounds(tagged)[j], tag.text, SWITCH_TAG)) {
          ReplaceKeepsSettled(Outbounds(tagged)[j], tag.text);
        }
      }
    }
  }

  lemma {:induction false} PassSettles(profile: Json, i: nat)
    requires HasList(profile) && i <= |Outbounds(profile)| && SettledUpTo(profile, i)
    ensures SettledUpTo(Pass(profile, i), |Outbounds(profile)|)
    decreases |Outbounds(profile)| - i
  {
    if i < |Outbounds(profile)| {
      VisitSettles(profile, i);
      PassSettles(Visit(profile, i), i + 1);
    }
  }

  lemma {:induction false} SettledPass(profile: Json, i: nat)
    requires HasList(profile) && i <= |Outbounds(profile)| && SettledUpTo(profile, |Outbounds(profile)|)
    ensures Pass(profile, i) == profile
    decreases |Outbounds(profile)| - i
  {
    if i < |Outbounds(profile)| {
      SettledPass(profile, i + 1);
    }
  }

  /** Normalising a normalised profile changes nothing, whatever JSON the profile holds. */
  lemma NormalizeIdempotent(profile: Json)
    requires profile.Dict? && Normalize(profile).Ok?
    ensures Normalize(profile).value.Dict?
    ensures Normalize(Normalize(profile).value) == Normalize(profile)
  {
    if HasList(profile) {
      PassSettles(profile, 0);
      SettledPass(Pass(profile, 0), 0);
    }
  }
}
