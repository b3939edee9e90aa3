/** The shell port: one command at a time against the host. */
module Shell {
  import opened Network
  import opened Rules

  class ShellAdapter {
    var host: Host

    constructor (h: Host)
      ensures host == h
    {
      host := h;
    }

    method Execute(c: Command)
      modifies this
      ensures host == Exec(old(host), c)
    {
      host := Exec(host, c);
    }

    /** `ip rule del`; the exit status says whether a rule matched. */
    method DeleteRule(sel: Selector) returns (ok: bool)
      modifies this
      ensures host == Exec(old(host), RuleDelete(sel))
      ensures ok <==> exists r :: r in old(host.rules) && Selects(sel, r)
    {
      ok := exists r :: r in host.rules && Selects(sel, r);
      host := Exec(host, RuleDelete(sel));
    }

    /** while ip rule del priority N; do :; done */
    method Drain(priority: nat)
      modifies this
      ensures host == Exec(old(host), RuleDrain(priority))
      ensures forall r :: r in host.rules ==> r.priority != priority
    {
      var ok := true;
      while ok
        invariant host == old(host).(rules := host.rules)
        invariant Drop(host.rules, At(priority)) == Drop(old(host.rules), At(priority))
        invariant !ok ==> forall r :: r in host.rules ==> !Selects(At(priority), r)
        decreases ok, |host.rules|
      {
        DropRemove(host.rules, At(priority), At(priority));
        RemoveLength(host.rules, At(priority));
        ok := DeleteRule(At(priority));
      }
      DropNothing(host.rules, At(priority));
    }
  }
}
