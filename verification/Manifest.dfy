/** internal/manifest/manifest.go: the fields of a plugin's manifest that Core reads. */
module Manifests {
  import opened Routes

  datatype NavItem = NavItem(
    key: string,
    labels: map<string, string>,
    icon: string,
    href: string,
    permission: string,
    feature: string,
    group: string,
    sort: int,
    groupLabels: map<string, string>,
    groupSort: int)

  datatype DomainSurface = DomainSurface(surface: string, pathPrefix: string, sessionScoped: bool)

  datatype Manifest = Manifest(
    name: string,
    pluginType: string,
    routes: seq<Route>,
    nav: seq<NavItem>,
    domainSurfaces: seq<DomainSurface>)
}
