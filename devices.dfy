/** The device records the generator passes around.  In the program they are
    string-keyed dictionaries; here every key the modelled code reads or
    writes is a field, and a key that may be absent (`del`, `pop`) is an
    `Option`.  `type` and `name` are always present. */
module Devices {
  import opened Common

  /** The value under `ip_netmask` of an address: a literal (usually a
      `{get_param: ...}` reference) or a `list_join` of parts. */
  datatype IpNetmask = Plain(text: string) | ListJoin(separator: string, parts: seq<string>)

  /** `{'ip_netmask': ...}` */
  datatype Address = Address(ipNetmask: IpNetmask)

  /** `{'ip_netmask': ..., 'next_hop': ...}` or `{'default': True, 'next_hop': ...}` */
  datatype Route = Route(ipNetmask: string, nextHop: string) | DefaultRoute(nextHop: string)

  datatype Device = Device(
    deviceType: string,                 // 'type'
    name: string,                       // 'name'
    useDhcp: Option<bool>,              // 'use_dhcp'
    dnsServers: Option<string>,         // 'dns_servers'
    network: Option<string>,            // 'network'
    primary: Option<bool>,              // 'primary'
    vlanId: Option<string>,             // 'vlan_id'
    addresses: Option<seq<Address>>,    // 'addresses'
    routes: Option<seq<Route>>,         // 'routes'
    members: Option<seq<Device>>)       // 'members'

  /** A dictionary the modelled code mutates in place. */
  class Record {
    var deviceType: string
    var name: string
    var useDhcp: Option<bool>
    var dnsServers: Option<string>
    var network: Option<string>
    var primary: Option<bool>
    var vlanId: Option<string>
    var addresses: Option<seq<Address>>
    var routes: Option<seq<Route>>
    var members: Option<seq<Device>>

    /** The dictionary's current contents. */
    function Value(): Device
      reads this
    {
      Device(deviceType, name, useDhcp, dnsServers, network, primary, vlanId, addresses, routes, members)
    }

    constructor (d: Device)
      ensures Value() == d
    {
      deviceType, name, useDhcp, dnsServers := d.deviceType, d.name, d.useDhcp, d.dnsServers;
      network, primary, vlanId := d.network, d.primary, d.vlanId;
      addresses, routes, members := d.addresses, d.routes, d.members;
    }
  }
}
