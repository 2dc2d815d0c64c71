/**
  Serial-number-to-port resolution: the dictionary that maps each attached
  interface's hardware serial number to its OS device path.
 */
module Ports {
  import opened Wrappers

  /** One enumerated serial interface: its reported serial number, if any, and its device path. */
  datatype PortInfo = PortInfo(serialNumber: Option<string>, device: string)

  /** The comprehension's filter `if p.serial_number`: None and the empty string are falsy. */
  predicate HasSerialNumber(p: PortInfo)
  {
    p.serialNumber.Some? && p.serialNumber.value != ""
  }

  /** Port `p` reports the (non-empty) serial number `sn`. */
  predicate Carries(p: PortInfo, sn: string)
  {
    p.serialNumber == Some(sn) && sn != ""
  }

  /** `ports[i]` is the last port in enumeration order that reports `sn`. */
  ghost predicate LastCarrier(ports: seq<PortInfo>, i: int, sn: string)
  {
    0 <= i < |ports| && Carries(ports[i], sn) &&
    forall j :: i < j < |ports| ==> !Carries(ports[j], sn)
  }

  /**
    What the resolved mapping means for the enumerated `ports`: its keys are
    exactly the non-empty serial numbers reported, and each maps to the path
    of the last port in enumeration order that reports it.
   */
  ghost predicate Resolves(ports: seq<PortInfo>, m: map<string, string>)
  {
    && (forall sn :: sn in m <==> exists i :: 0 <= i < |ports| && Carries(ports[i], sn))
    && (forall sn :: sn in m ==> exists i :: LastCarrier(ports, i, sn) && m[sn] == ports[i].device)
  }

  /**
    The dictionary comprehension over the enumerated ports, in enumeration
    order: a port without a serial number is skipped, and a later port with
    the same serial number overwrites an earlier one.
   */
  function SerialPortsBySerialNumber(ports: seq<PortInfo>): (m: map<string, string>)
    ensures Resolves(ports, m)
  {
    if ports == [] then map[]
    else
      var n := |ports| - 1;
      var rest := SerialPortsBySerialNumber(ports[..n]);
      var p := ports[n];
      var m := if HasSerialNumber(p) then rest[p.serialNumber.value := p.device] else rest;
      StepResolves(ports[..n], p, rest, m);
      assert ports[..n] + [p] == ports;
      m
  }

  /** One more port in enumeration order keeps `Resolves`. */
  lemma StepResolves(prefix: seq<PortInfo>, p: PortInfo, rest: map<string, string>, m: map<string, string>)
    requires Resolves(prefix, rest)
    requires m == if HasSerialNumber(p) then rest[p.serialNumber.value := p.device] else rest
    ensures Resolves(prefix + [p], m)
  {
    var ports := prefix + [p];
    var n := |prefix|;
    forall sn | sn in m
      ensures exists i :: LastCarrier(ports, i, sn) && m[sn] == ports[i].device
    {
      if Carries(p, sn) {
        assert LastCarrier(ports, n, sn);
      } else {
        var i :| LastCarrier(prefix, i, sn) && rest[sn] == prefix[i].device;
        assert LastCarrier(ports, i, sn);
      }
    }
    forall sn | exists i :: 0 <= i < |ports| && Carries(ports[i], sn)
      ensures sn in m
    {
      var i :| 0 <= i < |ports| && Carries(ports[i], sn);
      if i < n {
        assert Carries(prefix[i], sn);
      }
    }
    forall sn | sn in m
      ensures exists i :: 0 <= i < |ports| && Carries(ports[i], sn)
    {
      if !Carries(p, sn) {
        var i :| 0 <= i < |prefix| && Carries(prefix[i], sn);
        assert Carries(ports[i], sn);
      } else {
        assert Carries(ports[n], sn);
      }
    }
  }

  /** The ports that survive the comprehension's filter, in enumeration order. */
  function WithSerialNumber(ports: seq<PortInfo>): (r: seq<PortInfo>)
    ensures forall i :: 0 <= i < |r| ==> HasSerialNumber(r[i])
    ensures |r| <= |ports|
  {
    if ports == [] then []
    else
      var n := |ports| - 1;
      WithSerialNumber(ports[..n]) + (if HasSerialNumber(ports[n]) then [ports[n]] else [])
  }

  /** Ports without a serial number never influence the result. */
  lemma {:induction false} OnlyNumberedPortsMatter(ports: seq<PortInfo>)
    ensures SerialPortsBySerialNumber(WithSerialNumber(ports)) == SerialPortsBySerialNumber(ports)
  {
    if ports != [] {
      var n := |ports| - 1;
      OnlyNumberedPortsMatter(ports[..n]);
      var filtered := WithSerialNumber(ports[..n]);
      if HasSerialNumber(ports[n]) {
        assert WithSerialNumber(ports) == filtered + [ports[n]];
        assert (filtered + [ports[n]])[..|filtered|] == filtered;
      } else {
        assert WithSerialNumber(ports) == filtered;
      }
    }
  }

  /**
    No caching: once an interface reporting `p.serialNumber` is enumerated
    (last), that serial number resolves to its path, and every other serial
    number resolves as before.
   */
  lemma AttachedPortResolves(ports: seq<PortInfo>, p: PortInfo)
    requires HasSerialNumber(p)
    ensures var m := SerialPortsBySerialNumber(ports + [p]);
      p.serialNumber.value in m && m[p.serialNumber.value] == p.device
    ensures var before, after := SerialPortsBySerialNumber(ports), SerialPortsBySerialNumber(ports + [p]);
      forall sn :: sn != p.serialNumber.value ==>
        (sn in after <==> sn in before) && (sn in before ==> after[sn] == before[sn])
  {
    assert (ports + [p])[..|ports|] == ports;
  }

  /** An interface that reports no serial number leaves the mapping unchanged. */
  lemma UnnumberedPortIgnored(ports: seq<PortInfo>, p: PortInfo)
    requires !HasSerialNumber(p)
    ensures SerialPortsBySerialNumber(ports + [p]) == SerialPortsBySerialNumber(ports)
  {
    assert (ports + [p])[..|ports|] == ports;
  }
}
