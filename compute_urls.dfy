/**
 * The three helpers that build fully qualified Compute Engine API URLs by
 * plain concatenation onto a fixed base, with no validation of their
 * arguments.
 */
module ComputeUrls {
  import opened PyStrings

  const ComputeUrlBase: string := "https://www.googleapis.com/compute/v1/"

  /** A URL segment that the URL's own separators cannot be confused with. */
  predicate IsSegment(s: string)
  {
    '/' !in s
  }

  /** The part of a compute URL after `ComputeUrlBase`. */
  function UrlPath(url: string): string
    requires |ComputeUrlBase| <= |url|
  {
    url[|ComputeUrlBase|..]
  }

  /** `<base>projects/<project>/global/<collection>/<name>` */
  function GlobalComputeUrl(project: string, collection: string, name: string): (url: string)
    ensures |ComputeUrlBase| < |url| && url[..|ComputeUrlBase|] == ComputeUrlBase
    ensures EndsWith(url, "/" + name)
  {
    var prefix := "projects/" + project + "/global/" + collection;
    EndsWithAppend(ComputeUrlBase + prefix, "/" + name, "/" + name);
    ComputeUrlBase + (prefix + "/" + name)
  }

  /** `<base>projects/<project>/zones/<zone>/<collection>/<name>` */
  function ZonalComputeUrl(project: string, zone: string, collection: string, name: string): (url: string)
    ensures |ComputeUrlBase| < |url| && url[..|ComputeUrlBase|] == ComputeUrlBase
    ensures EndsWith(url, "/" + name)
  {
    var prefix := "projects/" + project + "/zones/" + zone + "/" + collection;
    EndsWithAppend(ComputeUrlBase + prefix, "/" + name, "/" + name);
    ComputeUrlBase + (prefix + "/" + name)
  }

  /** `<base>projects/<project>/regions/<region>/<collection>/<name>` */
  function RegionalComputeUrl(project: string, region: string, collection: string, name: string): (url: string)
    ensures |ComputeUrlBase| < |url| && url[..|ComputeUrlBase|] == ComputeUrlBase
    ensures EndsWith(url, "/" + name)
  {
    var prefix := "projects/" + project + "/regions/" + region + "/" + collection;
    EndsWithAppend(ComputeUrlBase + prefix, "/" + name, "/" + name);
    ComputeUrlBase + (prefix + "/" + name)
  }

  /**
   * A global URL is the base followed by `projects`, the project, `global`,
   * the collection and the name, joined with '/', whatever the arguments.
   */
  lemma GlobalUrlShape(project: string, collection: string, name: string)
    ensures GlobalComputeUrl(project, collection, name)
         == ComputeUrlBase + Join(["projects", project, "global", collection, name], '/')
  {
    calc {
      Join(["projects", project, "global", collection, name], '/');
      { JoinCons("projects", [project, "global", collection, name], '/'); }
      "projects" + "/" + Join([project, "global", collection, name], '/');
      { JoinCons(project, ["global", collection, name], '/'); }
      "projects" + "/" + (project + "/" + Join(["global", collection, name], '/'));
      { JoinCons("global", [collection, name], '/'); }
      "projects" + "/" + (project + "/" + ("global" + "/" + Join([collection, name], '/')));
      { JoinCons(collection, [name], '/'); }
      "projects" + "/" + (project + "/" + ("global" + "/" + (collection + "/" + name)));
      { assert "projects" + "/" == "projects/"; assert "/" + "global" + "/" == "/global/"; }
      "projects/" + project + "/global/" + collection + "/" + name;
    }
  }

  /**
   * `projects/<project>/<scope>/<location>/<collection>/<name>` is its six
   * pieces joined with '/'.
   */
  lemma LocatedPathShape(project: string, scope: string, location: string, collection: string, name: string)
    ensures "projects/" + project + ("/" + scope + "/") + location + "/" + collection + "/" + name
         == Join(["projects", project, scope, location, collection, name], '/')
  {
    calc {
      Join(["projects", project, scope, location, collection, name], '/');
      { JoinCons("projects", [project, scope, location, collection, name], '/'); }
      "projects" + "/" + Join([project, scope, location, collection, name], '/');
      { JoinCons(project, [scope, location, collection, name], '/'); }
      "projects" + "/" + (project + "/" + Join([scope, location, collection, name], '/'));
      { JoinCons(scope, [location, collection, name], '/'); }
      "projects" + "/" + (project + "/" + (scope + "/" + Join([location, collection, name], '/')));
      { JoinCons(location, [collection, name], '/'); }
      "projects" + "/" + (project + "/" + (scope + "/" + (location + "/" + Join([collection, name], '/'))));
      { JoinCons(collection, [name], '/'); }
      "projects" + "/" + (project + "/" + (scope + "/" + (location + "/" + (collection + "/" + name))));
      { assert "projects" + "/" == "projects/"; }
      "projects/" + project + ("/" + scope + "/") + location + "/" + collection + "/" + name;
    }
  }

  /**
   * A zonal URL is the base followed by `projects`, the project, `zones`,
   * the zone, the collection and the name, joined with '/', whatever the
   * arguments.
   */
  lemma ZonalUrlShape(project: string, zone: string, collection: string, name: string)
    ensures ZonalComputeUrl(project, zone, collection, name)
         == ComputeUrlBase + Join(["projects", project, "zones", zone, collection, name], '/')
  {
    assert "/zones/" == "/" + "zones" + "/";
    LocatedPathShape(project, "zones", zone, collection, name);
  }

  /**
   * A regional URL is the base followed by `projects`, the project,
   * `regions`, the region, the collection and the name, joined with '/',
   * whatever the arguments.
   */
  lemma RegionalUrlShape(project: string, region: string, collection: string, name: string)
    ensures RegionalComputeUrl(project, region, collection, name)
         == ComputeUrlBase + Join(["projects", project, "regions", region, collection, name], '/')
  {
    assert "/regions/" == "/" + "regions" + "/";
    LocatedPathShape(project, "regions", region, collection, name);
  }

  /**
   * After the base, a global URL splits on '/' back into `projects`, the
   * project, `global`, the collection and the name, so long as none of the
   * three arguments contains a '/'.
   */
  lemma GlobalUrlSegments(project: string, collection: string, name: string)
    requires IsSegment(project) && IsSegment(collection) && IsSegment(name)
    ensures Split(UrlPath(GlobalComputeUrl(project, collection, name)), '/')
         == ["projects", project, "global", collection, name]
  {
    var segs := ["projects", project, "global", collection, name];
    GlobalUrlShape(project, collection, name);
    assert UrlPath(ComputeUrlBase + Join(segs, '/')) == Join(segs, '/');
    SplitJoin(segs, '/');
  }

  /** After the base, a zonal URL splits back into `projects`, project, `zones`, zone, collection, name. */
  lemma ZonalUrlSegments(project: string, zone: string, collection: string, name: string)
    requires IsSegment(project) && IsSegment(zone) && IsSegment(collection) && IsSegment(name)
    ensures Split(UrlPath(ZonalComputeUrl(project, zone, collection, name)), '/')
         == ["projects", project, "zones", zone, collection, name]
  {
    var segs := ["projects", project, "zones", zone, collection, name];
    ZonalUrlShape(project, zone, collection, name);
    assert UrlPath(ComputeUrlBase + Join(segs, '/')) == Join(segs, '/');
    SplitJoin(segs, '/');
  }

  /** After the base, a regional URL splits back into `projects`, project, `regions`, region, collection, name. */
  lemma RegionalUrlSegments(project: string, region: string, collection: string, name: string)
    requires IsSegment(project) && IsSegment(region) && IsSegment(collection) && IsSegment(name)
    ensures Split(UrlPath(RegionalComputeUrl(project, region, collection, name)), '/')
         == ["projects", project, "regions", region, collection, name]
  {
    var segs := ["projects", project, "regions", region, collection, name];
    RegionalUrlShape(project, region, collection, name);
    assert UrlPath(ComputeUrlBase + Join(segs, '/')) == Join(segs, '/');
    SplitJoin(segs, '/');
  }

  /** On separator-free arguments a global URL determines its arguments. */
  lemma GlobalUrlInjective(p1: string, c1: string, n1: string, p2: string, c2: string, n2: string)
    requires IsSegment(p1) && IsSegment(c1) && IsSegment(n1)
    requires IsSegment(p2) && IsSegment(c2) && IsSegment(n2)
    requires GlobalComputeUrl(p1, c1, n1) == GlobalComputeUrl(p2, c2, n2)
    ensures p1 == p2 && c1 == c2 && n1 == n2
  {
    GlobalUrlSegments(p1, c1, n1);
    GlobalUrlSegments(p2, c2, n2);
    var s1 := ["projects", p1, "global", c1, n1];
    var s2 := ["projects", p2, "global", c2, n2];
    assert s1 == s2;
    assert s1[1] == s2[1] && s1[3] == s2[3] && s1[4] == s2[4];
  }

  /** On separator-free arguments a zonal URL determines its arguments. */
  lemma ZonalUrlInjective(p1: string, z1: string, c1: string, n1: string, p2: string, z2: string, c2: string, n2: string)
    requires IsSegment(p1) && IsSegment(z1) && IsSegment(c1) && IsSegment(n1)
    requires IsSegment(p2) && IsSegment(z2) && IsSegment(c2) && IsSegment(n2)
    requires ZonalComputeUrl(p1, z1, c1, n1) == ZonalComputeUrl(p2, z2, c2, n2)
    ensures p1 == p2 && z1 == z2 && c1 == c2 && n1 == n2
  {
    ZonalUrlSegments(p1, z1, c1, n1);
    ZonalUrlSegments(p2, z2, c2, n2);
    var s1 := ["projects", p1, "zones", z1, c1, n1];
    var s2 := ["projects", p2, "zones", z2, c2, n2];
    assert s1 == s2;
    assert s1[1] == s2[1] && s1[3] == s2[3] && s1[4] == s2[4] && s1[5] == s2[5];
  }

  /** On separator-free arguments a regional URL determines its arguments. */
  lemma RegionalUrlInjective(p1: string, r1: string, c1: string, n1: string, p2: string, r2: string, c2: string, n2: string)
    requires IsSegment(p1) && IsSegment(r1) && IsSegment(c1) && IsSegment(n1)
    requires IsSegment(p2) && IsSegment(r2) && IsSegment(c2) && IsSegment(n2)
    requires RegionalComputeUrl(p1, r1, c1, n1) == RegionalComputeUrl(p2, r2, c2, n2)
    ensures p1 == p2 && r1 == r2 && c1 == c2 && n1 == n2
  {
    RegionalUrlSegments(p1, r1, c1, n1);
    RegionalUrlSegments(p2, r2, c2, n2);
    var s1 := ["projects", p1, "regions", r1, c1, n1];
    var s2 := ["projects", p2, "regions", r2, c2, n2];
    assert s1 == s2;
    assert s1[1] == s2[1] && s1[3] == s2[3] && s1[4] == s2[4] && s1[5] == s2[5];
  }
}
