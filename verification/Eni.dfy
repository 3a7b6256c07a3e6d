/** Finding the network interface that owns a private IP in what EC2 says of an instance. */
module Eni {
  import opened Base

  datatype PrivateIp = PrivateIp(address: Option<string>)

  datatype Nic = Nic(id: Option<string>, ips: Option<seq<PrivateIp>>)

  datatype Instance = Instance(nics: Option<seq<Nic>>)

  datatype Reservation = Reservation(instances: Option<seq<Instance>>)

  datatype Description = Description(reservations: Option<seq<Reservation>>)

  /** `Panic` is indexing into an empty list, which aborts the process. */
  datatype Lookup = Panic | Answer(eni: Option<string>)

  /** The interface has an id and the private IP is one of its own. */
  predicate Owns(nic: Nic, ip: string) {
    nic.id.Some? && nic.ips.Some? && PrivateIp(Some(ip)) in nic.ips.value
  }

  function FindIp(nic: Nic, ips: seq<PrivateIp>, ip: string): (r: Option<string>)
    ensures r == if PrivateIp(Some(ip)) in ips then nic.id else None
  {
    if ips == [] then None
    else if ips[0].address == Some(ip) && nic.id.Some? then nic.id
    else FindIp(nic, ips[1..], ip)
  }

  function FindNic(nics: seq<Nic>, ip: string): (r: Option<string>)
    ensures r.None? ==> forall i :: 0 <= i < |nics| ==> !Owns(nics[i], ip)
    ensures r.Some? ==>
              exists i :: 0 <= i < |nics| && Owns(nics[i], ip) && nics[i].id == r && forall j :: 0 <= j < i ==>
                  !Owns(nics[j], ip)
  {
    if nics == [] then None
    else
      var here := if nics[0].ips.Some? then FindIp(nics[0], nics[0].ips.value, ip) else None;
      if here.Some? then
        assert Owns(nics[0], ip);
        here
      else
        var rest := FindNic(nics[1..], ip);
        assert !Owns(nics[0], ip);
        assert forall i :: 0 < i < |nics| ==> nics[i] == nics[1..][i - 1];
        assert rest.Some? ==>
            exists i :: 0 <= i < |nics| && Owns(nics[i], ip) && nics[i].id == rest && forall j :: 0 <= j < i ==>
                !Owns(nics[j], ip) by {
          if rest.Some? {
            var i :| 0 <= i < |nics[1..]| && Owns(nics[1..][i], ip) && nics[1..][i].id == rest
                && forall j :: 0 <= j < i ==> !Owns(nics[1..][j], ip);
            assert Owns(nics[i + 1], ip) && forall j :: 0 <= j < i + 1 ==> !Owns(nics[j], ip);
          }
        }
        rest
  }

  function FromPrivateIp(d: Description, ip: string): Lookup {
    if d.reservations.None? then Answer(None)
    else if d.reservations.value == [] then Panic
    else if d.reservations.value[0].instances.None? then Answer(None)
    else if d.reservations.value[0].instances.value == [] then Panic
    else if d.reservations.value[0].instances.value[0].nics.None? then Answer(None)
    else Answer(FindNic(d.reservations.value[0].instances.value[0].nics.value, ip))
  }

  /** The interfaces of the first instance of the first reservation, as far as they are reported. */
  function FirstNics(d: Description): seq<Nic> {
    if d.reservations.None? || d.reservations.value == [] then []
    else
      var instances := d.reservations.value[0].instances;
      if instances.None? || instances.value == [] || instances.value[0].nics.None? then []
         else instances.value[0].nics.value
  }

  /** The first of the interfaces that own the IP has the id. */
  predicate IsFirstOwner(nics: seq<Nic>, ip: string, eni: string) {
    exists i :: 0 <= i < |nics| && Owns(nics[i], ip) && nics[i].id == Some(eni) && forall j :: 0 <= j < i ==>
        !Owns(nics[j], ip)
  }

  /** A reservation list or an instance list that is present but empty. */
  predicate HasEmptyList(d: Description) {
    d.reservations.Some? && (d.reservations.value == [] || d.reservations.value[0].instances == Some([]))
  }

  /** Sound and complete: an answer names the first interface that has an id and owns the IP, and there is
      no answer only if no interface does. The lookup panics just when a list it indexes is empty. */
  lemma FromPrivateIpIsFirstOwner(d: Description, ip: string)
    ensures FromPrivateIp(d, ip) == Panic <==> HasEmptyList(d)
    ensures forall rs: seq<Reservation>, instances: seq<Instance>, nics: seq<Nic> ::
              && d.reservations == Some(rs) && rs != [] && rs[0].instances == Some(instances)
              && instances != [] && instances[0].nics == Some(nics)
              ==> FirstNics(d) == nics
    ensures FromPrivateIp(d, ip) == Answer(None) ==> forall nic :: nic in FirstNics(d) ==> !Owns(nic, ip)
    ensures var r := FromPrivateIp(d, ip); r.Answer? && r.eni.Some? ==> IsFirstOwner(FirstNics(d), ip, r.eni.value)
  {
    var nics := FirstNics(d);
    var r := FromPrivateIp(d, ip);
    if r.Answer? && r.eni.Some? {
      assert FindNic(nics, ip) == r.eni;
    }
  }
}
