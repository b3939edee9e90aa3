/** The configuration file on disk: deployed at start, rewritten by a server switch. */
module Deployer {
  import opened Network
  import opened Profile
  import opened Sanitizing
  import opened Shell
  import opened Wrappers
  import Catalog
  import Pinning
  import Provider

  /** A file on disk: a profile, or a text that cannot be read as one. */
  datatype File = Readable(profile: Profile) | Unreadable

  /** What a deployment leaves at the destination; a missing profile leaves the old file to be sanitised again. */
  function Deployed(profile: Option<File>, config: Option<File>, cache: set<string>): Option<File> {
    match if profile.Some? then profile else config
    case Some(Readable(p)) => Some(Readable(Sanitize(p, cache)))
    case Some(Unreadable) => Some(Unreadable)
    case None => None
  }

  class ConfigFiles {
    var profile: Option<File>
    var config: Option<File>

    /** An unreadable profile has replaced the old configuration by the time reading it fails. */
    method Deploy(cache: set<string>) returns (ok: bool)
      modifies this`config
      ensures config == Deployed(profile, old(config), cache)
      ensures ok <==> config.Some? && config.value.Readable?
    {
      if profile == None {
        if config == None {
          return false;
        }
      } else {
        config := profile;
      }
      if config.value.Unreadable? {
        return false;
      }
      var raw := new Provider.Tree.Parse(config.value.profile);
      Provider.SanitizeConfig(raw, cache);
      config := Some(Readable(raw.View()));
      ok := true;
    }

    /**
     The switcher writes the configuration for the server and, when told to, has the old
     sing-box killed; or it fails and does neither.
     */
    method Switch(provider: Provider.AkonitProvider, shell: ShellAdapter, name: string, cache: set<string>, restart: bool)
      returns (r: Result<string, Provider.Error>)
      requires provider.Valid()
      modifies this`config, provider`profileData, shell
      ensures provider.Valid()
      ensures match Provider.Current(old(provider.State()))
        case None => r == Err(Provider.NoProfile)
        case Some(p) =>
          match Provider.Server(p, name)
          case Err(e) => r == Err(e)
          case Ok(s) => r == Ok(s.tag) && config == Some(Readable(Sanitize(Pin(p, s.tag), cache)))
      ensures r.Err? ==> config == old(config)
      ensures shell.host == if r.Ok? && restart then Exec(old(shell.host), PkillSingbox) else old(shell.host)
    {
      r := Write(provider, name, cache);
      if r.Ok? && restart {
        shell.Execute(PkillSingbox);
      }
    }

    method Write(provider: Provider.AkonitProvider, name: string, cache: set<string>)
      returns (r: Result<string, Provider.Error>)
      requires provider.Valid()
      modifies this`config, provider`profileData
      ensures provider.Valid()
      ensures match Provider.Current(old(provider.State()))
        case None => r == Err(Provider.NoProfile)
        case Some(p) =>
          match Provider.Server(p, name)
          case Err(e) => r == Err(e)
          case Ok(s) => r == Ok(s.tag) && config == Some(Readable(Sanitize(Pin(p, s.tag), cache)))
      ensures r.Err? ==> config == old(config)
    {
      ghost var current := Provider.Current(provider.State());
      var built := provider.BuildSingboxConfig(name, cache);
      assert Provider.Current(provider.State()) == current;
      if built.Err? {
        return Err(built.error);
      }
      assert current.Some? && Provider.Server(current.value, name).Ok?;
      config := Some(Readable(built.value));
      var server := provider.GetServer(name);
      assert server == Provider.Server(current.value, name);
      r := Ok(server.value.tag);
    }
  }

  /**
   A deployment from a profile forgets every switch: packets of the switch group are sent
   to the group again, whatever server the file had pinned.
   */
  lemma DeployUnpins(p: Profile, pinned: Option<File>, cache: set<string>, packet: Pinning.Packet)
    requires Pinning.Outlet(p, packet) == Some(SWITCH_TAG)
    ensures Pinning.Outlet(Deployed(Some(Readable(p)), pinned, cache).value.profile, packet) == Some(SWITCH_TAG)
  {
    Pinning.OutletAfter(p, packet, cache);
    Pinning.SwitchTagIsNormal();
  }

  /** Without a profile the switch is kept unchanged if and only if its texts are stable. */
  lemma SwitchSurvivesDeployIff(p: Profile, target: string, cache: set<string>)
    ensures var config := Some(Readable(Sanitize(Pin(p, target), cache)));
      Deployed(None, config, cache) == config <==> Pinning.AllStable(Pin(p, target))
  {
    Pinning.SanitizeIdempotentIff(Pin(p, target), cache);
  }

  // ------------------------------------------------------------ reloading a profile

  /** The server a reload switches to: the active one if it still exists, else the first by name. */
  function ReloadTarget(p: Profile, active: Option<string>): Option<string> {
    var servers := Catalog.Catalogue(p.outbounds);
    if servers == [] then None
    else if active.Some? && Catalog.Lookup(servers, active.value).Some? then active
    else Some(servers[0].name)
  }

  /** A reload finds no target only in a profile without servers; otherwise the target is a server of the new profile. */
  lemma ReloadTargetExists(p: Profile, active: Option<string>)
    ensures ReloadTarget(p, active).None? <==> Catalog.Records(p.outbounds) == []
    ensures ReloadTarget(p, active).Some? ==> Provider.Server(p, ReloadTarget(p, active).value).Ok?
    ensures ReloadTarget(p, active).Some? ==>
      (ReloadTarget(p, active) == active <==> active.Some? && Provider.Server(p, active.value).Ok?)
    ensures ReloadTarget(p, active).Some? && ReloadTarget(p, active) != active ==>
      forall s :: s in Catalog.Catalogue(p.outbounds) ==> Catalog.Leq(ReloadTarget(p, active).value, s.name)
  {
    var servers := Catalog.Catalogue(p.outbounds);
    Catalog.CatalogueSize(p.outbounds);
    Catalog.CatalogueIsSortedPermutation(p.outbounds);
    if servers != [] {
      Catalog.FirstIsLeast(servers);
    }
  }
}
