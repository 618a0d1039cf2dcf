/** The host record the upstream scanning API returns for one address, as the
    analysis code reads it. A JavaScript property that may be missing is an
    `Option`; a vulnerability table is the list of its `[cve, details]` entries
    in property order. */
module HostModel {
  import opened Wrappers

  /** One entry of `host.vulns`: only the fields the analysis reads. */
  datatype VulnDetail = VulnDetail(
    cvss: Option<real>,
    summary: Option<string>,
    verified: bool,
    references: Option<seq<string>>)

  /** One element of `host.data`: a service banner seen on a port. */
  datatype Service = Service(
    port: int,
    transport: string,
    product: Option<string>,
    version: Option<string>,
    banner: Option<string>,
    timestamp: Option<string>)

  type VulnTable = seq<(string, VulnDetail)>

  /** A host record. `error` is set only on the placeholder record the host
      comparison stores for an address whose lookup failed. */
  datatype HostRecord = HostRecord(
    ip: string,
    hostnames: Option<seq<string>>,
    org: Option<string>,
    isp: Option<string>,
    country: Option<string>,
    city: Option<string>,
    region: Option<string>,
    longitude: Option<real>,
    latitude: Option<real>,
    ports: Option<seq<int>>,
    data: Option<seq<Service>>,
    vulns: Option<VulnTable>,
    tags: Option<seq<string>>,
    lastUpdate: Option<string>,
    error: Option<string>)

  /** JavaScript truthiness of an optional string: present and not empty. */
  predicate Truthy(s: Option<string>) {
    s.Some? && s.value != ""
  }

  /** `details.cvss || 0`: a missing score counts as 0. */
  function Cvss(d: VulnDetail): real {
    if d.cvss.Some? then d.cvss.value else 0.0
  }

  /** `host.vulns || {}` as its list of entries. */
  function VulnEntries(h: HostRecord): VulnTable {
    if h.vulns.Some? then h.vulns.value else []
  }

  /** `host.ports || []`. */
  function Ports(h: HostRecord): seq<int> {
    if h.ports.Some? then h.ports.value else []
  }

  /** `host.data || []`. */
  function Services(h: HostRecord): seq<Service> {
    if h.data.Some? then h.data.value else []
  }

  /** `host.tags || []`. */
  function Tags(h: HostRecord): seq<string> {
    if h.tags.Some? then h.tags.value else []
  }

  /** The identifiers of a vulnerability table, `Object.keys(host.vulns)`. */
  function Cves(t: VulnTable): (ids: seq<string>)
    ensures |ids| == |t|
    ensures forall i :: 0 <= i < |t| ==> ids[i] == t[i].0
  {
    if t == [] then [] else Cves(t[..|t| - 1]) + [t[|t| - 1].0]
  }

  /** The placeholder record the host comparison keeps for an address whose
      lookup threw: only the address and the error message. */
  function ErrorRecord(ip: string, message: string): HostRecord {
    HostRecord(ip, None, None, None, None, None, None, None, None, None, None, None, None, None, Some(message))
  }
}
