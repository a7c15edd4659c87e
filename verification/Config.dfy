/** `Heartbeat.to_header`/`from_header` and `ConnectionParameters.from_pydantic_multihost_hosts`. */
module Config {
  import opened Bytes
  import opened Decimal

  // ------------------------------------------------------------------------------------------
  // The heart-beat header
  // ------------------------------------------------------------------------------------------

  datatype Heartbeat = Heartbeat(willSendIntervalMs: int, wantToReceiveIntervalMs: int)

  function ToHeader(h: Heartbeat): string
  {
    Print(h.willSendIntervalMs) + "," + Print(h.wantToReceiveIntervalMs)
  }

  function CommaIn(s: string): (i: nat)
    ensures i <= |s| && ',' !in s[..i]
    ensures i < |s| ==> s[i] == ','
  {
    if s == "" || s[0] == ',' then 0 else 1 + CommaIn(s[1..])
  }

  /** Splits at the first comma; `None` is the `ValueError` of a missing comma or a bad number. */
  function FromHeader(toInt: string -> Option<int>, s: string): Option<Heartbeat>
  {
    var i := CommaIn(s);
    if i == |s| then None
    else
      match (toInt(s[..i]), toInt(s[i + 1..]))
      case (Some(a), Some(b)) => Some(Heartbeat(a, b))
      case _ => None
  }

  lemma NoCommaInNumber(n: int)
    ensures ',' !in Print(n)
  {
  }

  /** Every heartbeat survives its header, with any `int()` that inverts `str()`. */
  lemma HeartbeatRoundTrip(toInt: string -> Option<int>, h: Heartbeat)
    requires InvertsPrint(toInt)
    ensures FromHeader(toInt, ToHeader(h)) == Some(h)
  {
    var a, b := Print(h.willSendIntervalMs), Print(h.wantToReceiveIntervalMs);
    NoCommaInNumber(h.willSendIntervalMs);
    var s := ToHeader(h);
    var i := CommaIn(s);
    assert s[|a|] == ',' && s[..|a|] == a;
    assert i <= |a|;
    assert i == |a|;
    assert s[i + 1..] == b;
  }

  /** A header is read as the numbers before and after its first comma, and rejected when there is no
      comma or one of them is no number. */
  lemma HeartbeatRead(toInt: string -> Option<int>, s: string)
    ensures ',' !in s ==> FromHeader(toInt, s).None?
    ensures forall a, b :: s == a + "," + b && ',' !in a ==>
              FromHeader(toInt, s) == if toInt(a).Some? && toInt(b).Some? then Some(Heartbeat(toInt(a).value, toInt(b).value)) else None
  {
    forall a, b | s == a + "," + b && ',' !in a
      ensures FromHeader(toInt, s) == if toInt(a).Some? && toInt(b).Some? then Some(Heartbeat(toInt(a).value, toInt(b).value)) else None
    {
      var i := CommaIn(s);
      assert s[|a|] == ',' && s[..|a|] == a && s[|a| + 1..] == b;
      assert i <= |a|;
      assert i == |a|;
    }
  }

  // ------------------------------------------------------------------------------------------
  // Credentials of several hosts
  // ------------------------------------------------------------------------------------------

  datatype HostLike = HostLike(username: Option<string>, password: Option<string>, host: Option<string>, port: Option<int>)

  datatype ConnectionParameters = ConnectionParameters(host: string, port: int, login: string, passcode: string)

  datatype Problem =
    | HostMissing | PortMissing | UsernameMissing | PasswordMissing
    | NoCredentials | CredentialCountMismatch

  datatype Outcome = Parameters(servers: seq<ConnectionParameters>) | Rejected(problem: Problem)

  /** The first complaint about one host, if any. */
  function Complaint(h: HostLike): Option<Problem>
  {
    if h.host.None? then Some(HostMissing)
    else if h.port.None? then Some(PortMissing)
    else if h.username.None? && h.password.Some? then Some(UsernameMissing)
    else if h.username.Some? && h.password.None? then Some(PasswordMissing)
    else None
  }

  predicate Named(h: HostLike) { h.username.Some? && h.password.Some? }

  /** The complaint about the first bad host. */
  function FirstComplaint(hosts: seq<HostLike>): (r: Option<Problem>)
    ensures r.None? ==> forall i :: 0 <= i < |hosts| ==> Complaint(hosts[i]).None?
  {
    if hosts == [] then None
    else
      var n := |hosts| - 1;
      match FirstComplaint(hosts[..n])
      case Some(p) => Some(p)
      case None => Complaint(hosts[n])
  }

  /** It is the complaint about a host all of whose predecessors are complete. */
  lemma {:induction false} FirstComplaintIsFirst(hosts: seq<HostLike>) returns (i: nat)
    requires FirstComplaint(hosts).Some?
    ensures i < |hosts| && Complaint(hosts[i]) == FirstComplaint(hosts)
    ensures forall k :: 0 <= k < i ==> Complaint(hosts[k]).None?
  {
    i := |hosts| - 1;
    if FirstComplaint(hosts[..i]).Some? {
      i := FirstComplaintIsFirst(hosts[..i]);
    }
  }

  /** `all_hosts` after the loop. */
  function Addresses(hosts: seq<HostLike>): (r: seq<(string, int)>)
    requires FirstComplaint(hosts).None?
    ensures |r| == |hosts|
    ensures forall i :: 0 <= i < |hosts| ==> hosts[i].host == Some(r[i].0) && hosts[i].port == Some(r[i].1)
  {
    seq(|hosts|, i requires 0 <= i < |hosts| => (hosts[i].host.value, hosts[i].port.value))
  }

  /** `all_credentials` after the loop. */
  function Credentials(hosts: seq<HostLike>): (r: seq<(string, string)>)
    ensures |r| <= |hosts|
  {
    if hosts == [] then []
    else
      var n := |hosts| - 1;
      Credentials(hosts[..n])
      + if Named(hosts[n]) then [(hosts[n].username.value, hosts[n].password.value)] else []
  }

  function Assign(addresses: seq<(string, int)>, credentials: seq<(string, string)>): (r: seq<ConnectionParameters>)
    requires |addresses| == |credentials|
    ensures |r| == |addresses|
  {
    seq(|addresses|, i requires 0 <= i < |addresses| =>
      ConnectionParameters(addresses[i].0, addresses[i].1, credentials[i].0, credentials[i].1))
  }

  function Resolve(hosts: seq<HostLike>): Outcome
  {
    var problem := FirstComplaint(hosts);
    var n := |Credentials(hosts)|;
    if problem.Some? then Rejected(problem.value)
    else if n == |hosts| then Parameters(Assign(Addresses(hosts), Credentials(hosts)))
    else if n == 1 then Parameters(Assign(Addresses(hosts), seq(|hosts|, _ => Credentials(hosts)[0])))
    else Rejected(if n == 0 then NoCredentials else CredentialCountMismatch)
  }

  /** `from_pydantic_multihost_hosts`. */
  method FromMultihostHosts(hosts: seq<HostLike>) returns (r: Outcome)
    ensures r == Resolve(hosts)
  {
    var allHosts: seq<(string, int)> := [];
    var allCredentials: seq<(string, string)> := [];
    for i := 0 to |hosts|
      invariant FirstComplaint(hosts[..i]).None?
      invariant allHosts == Addresses(hosts[..i])
      invariant allCredentials == Credentials(hosts[..i])
    {
      var host := hosts[i];
      assert hosts[..i + 1][..i] == hosts[..i];
      ComplaintStays(hosts, i + 1);
      if host.host.None? { return Rejected(HostMissing); }
      if host.port.None? { return Rejected(PortMissing); }
      allHosts := allHosts + [(host.host.value, host.port.value)];
      if host.username.None? {
        if host.password.Some? { return Rejected(UsernameMissing); }
      } else if host.password.None? {
        return Rejected(PasswordMissing);
      } else {
        allCredentials := allCredentials + [(host.username.value, host.password.value)];
      }
    }
    assert hosts[..|hosts|] == hosts;
    if |allCredentials| == |allHosts| {
      return Parameters(Assign(allHosts, allCredentials));
    } else if |allCredentials| == 1 {
      return Parameters(Assign(allHosts, seq(|allHosts|, _ => allCredentials[0])));
    } else if |allCredentials| == 0 {
      return Rejected(NoCredentials);
    }
    return Rejected(CredentialCountMismatch);
  }

  lemma {:induction false} ComplaintStays(hosts: seq<HostLike>, i: nat)
    requires i <= |hosts|
    ensures FirstComplaint(hosts[..i]).Some? ==> FirstComplaint(hosts) == FirstComplaint(hosts[..i])
  {
    if i == |hosts| {
      assert hosts[..i] == hosts;
    } else {
      var n := |hosts| - 1;
      assert hosts[..n][..i] == hosts[..i];
      ComplaintStays(hosts[..n], i);
    }
  }

  // What the loop's counting means

  function CountNamed(hosts: seq<HostLike>): nat
  {
    |set i | 0 <= i < |hosts| && hosts[i].username.Some? && hosts[i].password.Some?|
  }

  lemma {:induction false} CredentialsAreCounted(hosts: seq<HostLike>)
    ensures |Credentials(hosts)| == CountNamed(hosts)
  {
    if hosts != [] {
      var n := |hosts| - 1;
      CredentialsAreCounted(hosts[..n]);
      var before := set i | 0 <= i < |hosts[..n]| && hosts[..n][i].username.Some? && hosts[..n][i].password.Some?;
      var all := set i | 0 <= i < |hosts| && hosts[i].username.Some? && hosts[i].password.Some?;
      assert all == before + if Named(hosts[n]) then {n} else {};
      assert n !in before;
    }
  }

  /** `h` gives the address and `who` the login of entry `p`. */
  predicate Entry(p: ConnectionParameters, h: HostLike, who: HostLike)
  {
    && h.host == Some(p.host) && h.port == Some(p.port)
    && who.username == Some(p.login) && who.password == Some(p.passcode)
  }

  /** As many pairs as hosts: pair `i` is host `i`'s own. */
  lemma {:induction false} FullCountAligns(hosts: seq<HostLike>)
    requires |Credentials(hosts)| == |hosts|
    ensures forall i :: 0 <= i < |hosts| ==>
              hosts[i].username == Some(Credentials(hosts)[i].0) && hosts[i].password == Some(Credentials(hosts)[i].1)
  {
    if hosts != [] {
      FullCountAligns(hosts[..|hosts| - 1]);
    }
  }

  /** Exactly one pair: it is the pair of the only host that has one. */
  lemma {:induction false} SinglePair(hosts: seq<HostLike>) returns (j: nat)
    requires |Credentials(hosts)| == 1
    ensures j < |hosts| && Named(hosts[j]) && forall k :: 0 <= k < |hosts| && k != j ==> !Named(hosts[k])
    ensures Credentials(hosts)[0] == (hosts[j].username.value, hosts[j].password.value)
  {
    var n := |hosts| - 1;
    if Named(hosts[n]) {
      j := n;
      NoPairs(hosts[..n]);
      forall k | 0 <= k < n ensures !Named(hosts[k]) { assert hosts[..n][k] == hosts[k]; }
    } else {
      j := SinglePair(hosts[..n]);
      forall k | 0 <= k < n && k != j ensures !Named(hosts[k]) { assert hosts[..n][k] == hosts[k]; }
    }
  }

  lemma {:induction false} NoPairs(hosts: seq<HostLike>)
    requires Credentials(hosts) == []
    ensures forall k :: 0 <= k < |hosts| ==> !Named(hosts[k])
  {
    if hosts != [] { NoPairs(hosts[..|hosts| - 1]); }
  }

  /** Address and port are there, and a user name comes with a password. */
  predicate Complete(h: HostLike)
  {
    h.host.Some? && h.port.Some? && (h.username.Some? <==> h.password.Some?)
  }

  predicate FirstIncomplete(hosts: seq<HostLike>, i: nat)
  {
    i < |hosts| && !Complete(hosts[i]) && forall k :: 0 <= k < i ==> Complete(hosts[k])
  }

  /** What each rejection means: what the first incomplete host lacks, or that all are complete and the
      pairs are none, or more than one and fewer than the hosts. */
  lemma RejectionMeans(hosts: seq<HostLike>)
    requires Resolve(hosts).Rejected?
    ensures match Resolve(hosts).problem
            case HostMissing => exists i: nat :: FirstIncomplete(hosts, i) && hosts[i].host.None?
            case PortMissing => exists i: nat :: FirstIncomplete(hosts, i) && hosts[i].host.Some? && hosts[i].port.None?
            case UsernameMissing =>
              exists i: nat :: FirstIncomplete(hosts, i) && hosts[i].host.Some? && hosts[i].port.Some? && hosts[i].username.None?
            case PasswordMissing =>
              exists i: nat :: FirstIncomplete(hosts, i) && hosts[i].host.Some? && hosts[i].port.Some? && hosts[i].username.Some?
            case NoCredentials => CountNamed(hosts) == 0 < |hosts| && forall i :: 0 <= i < |hosts| ==> Complete(hosts[i])
            case CredentialCountMismatch =>
              1 < CountNamed(hosts) < |hosts| && forall i :: 0 <= i < |hosts| ==> Complete(hosts[i])
  {
    CredentialsAreCounted(hosts);
    if FirstComplaint(hosts).Some? {
      var i := FirstComplaintIsFirst(hosts);
      assert FirstIncomplete(hosts, i);
    }
  }

  /** Success exactly on complete hosts with a pair each or one pair in all; the hosts keep their
      order and each entry gets its own host's pair, or all get the single one. */
  lemma CredentialAlignment(hosts: seq<HostLike>)
    ensures Resolve(hosts).Parameters? <==>
              && (forall i :: 0 <= i < |hosts| ==> Complete(hosts[i]))
              && (CountNamed(hosts) == |hosts| || CountNamed(hosts) == 1)
    ensures Resolve(hosts).Parameters? ==> |Resolve(hosts).servers| == |hosts|
    ensures Resolve(hosts).Parameters? && CountNamed(hosts) == |hosts| ==>
              forall i :: 0 <= i < |hosts| ==> Entry(Resolve(hosts).servers[i], hosts[i], hosts[i])
    ensures Resolve(hosts).Parameters? && CountNamed(hosts) != |hosts| ==>
              exists j :: 0 <= j < |hosts| && forall i :: 0 <= i < |hosts| ==>
                Entry(Resolve(hosts).servers[i], hosts[i], hosts[j])
  {
    CredentialsAreCounted(hosts);
    if FirstComplaint(hosts).Some? {
      var i := FirstComplaintIsFirst(hosts);
      assert !Complete(hosts[i]);
    } else if |Credentials(hosts)| == |hosts| {
      OwnPairs(hosts);
    } else if |Credentials(hosts)| == 1 {
      var j := OnePairForAll(hosts);
    }
  }

  lemma OwnPairs(hosts: seq<HostLike>)
    requires FirstComplaint(hosts).None? && |Credentials(hosts)| == |hosts|
    ensures Resolve(hosts).Parameters? && |Resolve(hosts).servers| == |hosts|
    ensures forall i :: 0 <= i < |hosts| ==> Entry(Resolve(hosts).servers[i], hosts[i], hosts[i])
  {
    FullCountAligns(hosts);
  }

  lemma OnePairForAll(hosts: seq<HostLike>) returns (j: nat)
    requires FirstComplaint(hosts).None? && |Credentials(hosts)| == 1 != |hosts|
    ensures Resolve(hosts).Parameters? && |Resolve(hosts).servers| == |hosts| && j < |hosts|
    ensures forall i :: 0 <= i < |hosts| ==> Entry(Resolve(hosts).servers[i], hosts[i], hosts[j])
  {
    j := SinglePair(hosts);
  }
}
