/** The first-match endpoint search that both transfer sessions of the activity run:
    interfaces in index order, endpoints of each interface in index order, stopping at the
    first bulk endpoint of the wanted direction. */
module EndpointSearch {
  import opened UsbTypes

  /** The test applied to each endpoint: bulk transfer type and the wanted direction. */
  predicate Qualifies(e: Endpoint, dir: int) {
    TypeOf(e) == XferBulk && DirectionOf(e) == dir
  }

  /** (a, b) comes strictly before (i, j) in (interface index, endpoint index) order. */
  predicate Before(a: nat, b: nat, i: nat, j: nat) {
    a < i || (a == i && b < j)
  }

  /** No endpoint of any interface of the device qualifies. */
  ghost predicate NoneQualify(d: UsbDevice, dir: int) {
    forall a, b :: 0 <= a < |d.interfaces| && 0 <= b < |d.interfaces[a].endpoints| ==>
      !Qualifies(d.interfaces[a].endpoints[b], dir)
  }

  /** (i, j) names a qualifying endpoint of the device and no earlier pair qualifies. */
  ghost predicate IsFirstMatch(d: UsbDevice, dir: int, i: nat, j: nat) {
    i < |d.interfaces| && j < |d.interfaces[i].endpoints| &&
    Qualifies(d.interfaces[i].endpoints[j], dir) &&
    forall a, b :: 0 <= a < |d.interfaces| && 0 <= b < |d.interfaces[a].endpoints| && Before(a, b, i, j) ==>
      !Qualifies(d.interfaces[a].endpoints[b], dir)
  }

  /** Index of the first qualifying endpoint at or after index j. */
  function FirstFrom(eps: seq<Endpoint>, dir: int, j: nat): (r: Option<nat>)
    requires j <= |eps|
    ensures r.Some? ==> j <= r.value < |eps| && Qualifies(eps[r.value], dir)
    ensures r.Some? ==> forall m :: j <= m < r.value ==> !Qualifies(eps[m], dir)
    ensures r.None? <==> forall m :: j <= m < |eps| ==> !Qualifies(eps[m], dir)
    decreases |eps| - j
  {
    if j == |eps| then None
    else if Qualifies(eps[j], dir) then Some(j)
    else FirstFrom(eps, dir, j + 1)
  }

  /** (interface, endpoint) indices of the first qualifying endpoint in interfaces i and later. */
  function FirstMatchFrom(ifaces: seq<UsbInterface>, dir: int, i: nat): (r: Option<(nat, nat)>)
    requires i <= |ifaces|
    ensures r.Some? ==> i <= r.value.0 < |ifaces| && r.value.1 < |ifaces[r.value.0].endpoints|
    ensures r.Some? ==> Qualifies(ifaces[r.value.0].endpoints[r.value.1], dir)
    ensures r.Some? ==> forall a, b :: i <= a < |ifaces| && 0 <= b < |ifaces[a].endpoints| && Before(a, b, r.value.0, r.value.1) ==>
      !Qualifies(ifaces[a].endpoints[b], dir)
    ensures r.None? <==> forall a, b :: i <= a < |ifaces| && 0 <= b < |ifaces[a].endpoints| ==>
      !Qualifies(ifaces[a].endpoints[b], dir)
    decreases |ifaces| - i
  {
    if i == |ifaces| then None
    else match FirstFrom(ifaces[i].endpoints, dir, 0)
      case Some(j) => Some((i, j))
      case None => FirstMatchFrom(ifaces, dir, i + 1)
  }

  /** Indices of the first qualifying endpoint of the whole device. */
  function FirstMatch(d: UsbDevice, dir: int): (r: Option<(nat, nat)>)
    ensures r.Some? ==> IsFirstMatch(d, dir, r.value.0, r.value.1)
    ensures r.None? <==> NoneQualify(d, dir)
  {
    FirstMatchFrom(d.interfaces, dir, 0)
  }

  /** The endpoint the search settles on, if any. */
  function Located(d: UsbDevice, dir: int): (r: Option<Endpoint>)
    ensures r.Some? ==> Qualifies(r.value, dir)
    ensures r.None? <==> NoneQualify(d, dir)
  {
    match FirstMatch(d, dir)
    case None => None
    case Some((i, j)) => Some(d.interfaces[i].endpoints[j])
  }

  /** The first match is the only pair with that property: whatever pair qualifies with no
      earlier qualifying pair is the one the search returns. */
  lemma FirstMatchIsUnique(d: UsbDevice, dir: int, i: nat, j: nat)
    requires IsFirstMatch(d, dir, i, j)
    ensures FirstMatch(d, dir) == Some((i, j))
    ensures Located(d, dir) == Some(d.interfaces[i].endpoints[j])
  {
  }

  /** The loops of the activity: the outer one walks the interfaces, the inner one the
      endpoints of the current interface; both leave at the first qualifying endpoint. */
  method FindEndpoint(device: UsbDevice, dir: int) returns (found: Option<Endpoint>)
    ensures found == Located(device, dir)
  {
    found := None;
    var ifaces := device.interfaces;
    var i := 0;
    while i < |ifaces|
      invariant 0 <= i <= |ifaces|
      invariant found.None?
      invariant FirstMatchFrom(ifaces, dir, 0) == FirstMatchFrom(ifaces, dir, i)
    {
      var eps := ifaces[i].endpoints;
      var j := 0;
      while j < |eps|
        invariant 0 <= j <= |eps|
        invariant found.None?
        invariant FirstFrom(eps, dir, 0) == FirstFrom(eps, dir, j)
      {
        var endpoint := eps[j];
        if TypeOf(endpoint) == XferBulk && DirectionOf(endpoint) == dir {
          found := Some(endpoint);
          break;
        }
        j := j + 1;
      }
      if found.Some? {
        break;
      }
      i := i + 1;
    }
  }
}
