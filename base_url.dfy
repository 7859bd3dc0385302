/** The base URL of an upload: host, the server generation's path segment,
    repository and the Maven group as a path. */
module BaseURL {
  import opened Artifacts

  /** The groupID with every '.' replaced by '/': a Maven group as a path. */
  function GroupPath(groupID: string): string {
    seq(|groupID|, i requires 0 <= i < |groupID| => if groupID[i] == '.' then '/' else groupID[i])
  }

  /** The path with every '/' read back as '.', the inverse direction. */
  function GroupOfPath(path: string): string {
    seq(|path|, i requires 0 <= i < |path| => if path[i] == '/' then '.' else path[i])
  }

  /** The group path has the group id's length, turns every '.' into '/',
      holds no '.', and keeps every other character in its place. */
  lemma GroupPathNoDot(groupID: string)
    ensures |GroupPath(groupID)| == |groupID|
    ensures '.' !in GroupPath(groupID)
    ensures forall i :: 0 <= i < |groupID| && groupID[i] != '.' ==> GroupPath(groupID)[i] == groupID[i]
    ensures forall i :: 0 <= i < |groupID| && groupID[i] == '.' ==> GroupPath(groupID)[i] == '/'
  {
    var p := GroupPath(groupID);
    forall i | 0 <= i < |p| ensures p[i] != '.' { }
  }

  /** A group id that holds no '/' is recovered from its path. */
  lemma GroupPathRoundTrip(groupID: string)
    requires '/' !in groupID
    ensures GroupOfPath(GroupPath(groupID)) == groupID
  {
    var p := GroupPath(groupID);
    GroupPathNoDot(groupID);
    forall i | 0 <= i < |p| ensures GroupOfPath(p)[i] == groupID[i] {
      assert groupID[i] in groupID;
    }
  }

  /** The two server generations the upload knows. */
  predicate SupportedVersion(nexusVersion: string) {
    nexusVersion == "nexus2" || nexusVersion == "nexus3"
  }

  /** The path segment that follows the host: Nexus 2 serves repositories
      under content/repositories, Nexus 3 under repository. */
  function NexusPath(nexusVersion: string): string
    requires SupportedVersion(nexusVersion)
  {
    if nexusVersion == "nexus2" then "/content/repositories/" else "/repository/"
  }

  /** getBaseURL: validates host, version, repository and groupID in that
      order, failing on the first bad one, and builds the base URL. */
  function GetBaseURL(host: string, nexusVersion: string, repository: string, groupID: string): (r: Result<string>)
    ensures r.Success? <==> host != "" && SupportedVersion(nexusVersion) && repository != "" && groupID != ""
    ensures host == "" ==> r == Failure(ValidationError(EmptyHost))
    ensures host != "" && !SupportedVersion(nexusVersion) ==>
              r == Failure(ValidationError(UnsupportedNexusVersion(nexusVersion)))
    ensures host != "" && SupportedVersion(nexusVersion) && repository == "" ==>
              r == Failure(ValidationError(EmptyRepository))
    ensures host != "" && SupportedVersion(nexusVersion) && repository != "" && groupID == "" ==>
              r == Failure(ValidationError(EmptyGroupID))
  {
    if host == "" then Failure(ValidationError(EmptyHost))
    else if !SupportedVersion(nexusVersion) then Failure(ValidationError(UnsupportedNexusVersion(nexusVersion)))
    else if repository == "" then Failure(ValidationError(EmptyRepository))
    else if groupID == "" then Failure(ValidationError(EmptyGroupID))
    else Success(host + NexusPath(nexusVersion) + repository + "/" + GroupPath(groupID) + "/")
  }

  /** Layout of a successful base URL: it starts with the host, then the
      generation's segment and the repository, and it ends with the group's
      path and a '/'. */
  lemma BaseURLLayout(host: string, nexusVersion: string, repository: string, groupID: string)
    requires GetBaseURL(host, nexusVersion, repository, groupID).Success?
    ensures var u := GetBaseURL(host, nexusVersion, repository, groupID).value;
            var n := |host| + |NexusPath(nexusVersion)|;
            && |u| == n + |repository| + 1 + |groupID| + 1
            && u[..|host|] == host
            && (nexusVersion == "nexus2" ==> u[|host|..n] == "/content/repositories/")
            && (nexusVersion == "nexus3" ==> u[|host|..n] == "/repository/")
            && u[n..n + |repository|] == repository
            && u[n + |repository|] == '/'
            && u[n + |repository| + 1..|u| - 1] == GroupPath(groupID)
            && u[|u| - 1] == '/'
  {
    var seg := NexusPath(nexusVersion);
    var g := GroupPath(groupID);
    var n := |host| + |seg|;
    var front := host + seg + repository;
    var u := front + "/" + g + "/";
    assert u == GetBaseURL(host, nexusVersion, repository, groupID).value;
    assert u[..|front|] == front;
    assert front[..|host|] == host;
    assert front[|host|..n] == seg;
    assert front[n..] == repository;
    assert u[|front| + 1..|u| - 1] == g;
  }

  /** No dot of the group id survives in the base URL: a '.' in it comes
      from the host or the repository. */
  lemma BaseURLDots(host: string, nexusVersion: string, repository: string, groupID: string)
    requires GetBaseURL(host, nexusVersion, repository, groupID).Success?
    ensures '.' in GetBaseURL(host, nexusVersion, repository, groupID).value <==> '.' in host || '.' in repository
  {
    GroupPathNoDot(groupID);
    assert '.' !in NexusPath(nexusVersion);
  }

  /** TestSensibleBaseURLNexus2: a Nexus 2 host with a context path. */
  lemma SensibleBaseURLNexus2()
    ensures GetBaseURL("localhost:8081/nexus", "nexus2", "maven-releases", "some.group.id")
            == Success("localhost:8081/nexus/content/repositories/maven-releases/some/group/id/")
  {
    assert GroupPath("some.group.id") == "some/group/id";
    Nexus2Spelling();
  }

  /** The Nexus 2 URL of the test, spelt out piece by piece. This and the
      other spelling lemmas state no property of the model: they only split
      a long string-literal comparison into steps the solver finishes. */
  lemma Nexus2Spelling()
    ensures "localhost:8081/nexus" + "/content/repositories/" + "maven-releases" + "/" + "some/group/id" + "/"
            == "localhost:8081/nexus/content/repositories/maven-releases/some/group/id/"
  {
    assert "localhost:8081/nexus" + "/content/repositories/" == "localhost:8081/nexus/content/repositories/";
    assert "localhost:8081/nexus/content/repositories/" + "maven-releases"
           == "localhost:8081/nexus/content/repositories/maven-releases";
    assert "localhost:8081/nexus/content/repositories/maven-releases" + "/"
           == "localhost:8081/nexus/content/repositories/maven-releases/";
    assert "localhost:8081/nexus/content/repositories/maven-releases/" + "some/group/id"
           == "localhost:8081/nexus/content/repositories/maven-releases/some/group/id";
  }

  /** TestSensibleBaseURLNexus3: a Nexus 3 host. */
  lemma SensibleBaseURLNexus3()
    ensures GetBaseURL("localhost:8081", "nexus3", "maven-releases", "some.group.id")
            == Success("localhost:8081/repository/maven-releases/some/group/id/")
  {
    assert GroupPath("some.group.id") == "some/group/id";
    Nexus3Spelling();
  }

  /** The Nexus 3 URL of the test, spelt out piece by piece (a solver aid,
      like Nexus2Spelling). */
  lemma Nexus3Spelling()
    ensures "localhost:8081" + "/repository/" + "maven-releases" + "/" + "some/group/id" + "/"
            == "localhost:8081/repository/maven-releases/some/group/id/"
  {
    assert "localhost:8081" + "/repository/" == "localhost:8081/repository/";
    assert "localhost:8081/repository/" + "maven-releases" == "localhost:8081/repository/maven-releases";
    assert "localhost:8081/repository/maven-releases" + "/" == "localhost:8081/repository/maven-releases/";
    assert "localhost:8081/repository/maven-releases/" + "some/group/id"
           == "localhost:8081/repository/maven-releases/some/group/id";
  }
}
