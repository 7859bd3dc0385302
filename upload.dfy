/** The Nexus upload session: configuration setters, the registered
    artifact list, and the upload that walks it through a transport. */
module Nexus {
  import opened Artifacts
  import opened BaseURL
  import opened Registry
  import opened Transport
  import opened Execution

  class Upload {
    var baseURL: string
    var version: string
    var artifacts: seq<ArtifactDescription>

    /** The list holds no two entries with one id and no entry without id
        or file. */
    ghost predicate Valid()
      reads this
    {
      ValidList(artifacts)
    }

    /** An empty session, as `Upload{}`: nothing configured, nothing added. */
    constructor ()
      ensures Valid() && baseURL == "" && version == "" && artifacts == []
    {
      baseURL, version, artifacts := "", "", [];
    }

    /** SetBaseURL: stores the base URL built from the arguments, or reports
        why they were refused and keeps the previous one. */
    method SetBaseURL(host: string, nexusVersion: string, repository: string, groupID: string) returns (err: Outcome)
      modifies this`baseURL
      ensures var r := GetBaseURL(host, nexusVersion, repository, groupID);
              && (r.Success? ==> err == Pass && baseURL == r.value)
              && (r.Failure? ==> err == Fail(r.error) && baseURL == old(baseURL))
    {
      var r := GetBaseURL(host, nexusVersion, repository, groupID);
      if r.Failure? {
        return Fail(r.error);
      }
      baseURL := r.value;
      return Pass;
    }

    /** SetArtifactsVersion: any non-empty version is stored, the empty one
        refused. */
    method SetArtifactsVersion(v: string) returns (err: Outcome)
      modifies this`version
      ensures v == "" ==> err == Fail(ValidationError(EmptyArtifactsVersion)) && version == old(version)
      ensures v != "" ==> err == Pass && version == v
    {
      if v == "" {
        return Fail(ValidationError(EmptyArtifactsVersion));
      }
      version := v;
      return Pass;
    }

    /** Whether an artifact with the id of a is registered. */
    method ContainsArtifact(a: ArtifactDescription) returns (found: bool)
      ensures found <==> HasID(artifacts, a.ID)
    {
      var i := 0;
      while i < |artifacts|
        invariant 0 <= i <= |artifacts|
        invariant forall j :: 0 <= j < i ==> artifacts[j].ID != a.ID
      {
        if artifacts[i].ID == a.ID {
          return true;
        }
        i := i + 1;
      }
      return false;
    }

    /** AddArtifact: a description without id or file is refused and the
        list stays as it is; a new id is appended; a registered id is a
        silent no-op. */
    method AddArtifact(a: ArtifactDescription) returns (err: Outcome)
      requires Valid()
      modifies this`artifacts
      ensures Valid()
      ensures err == ValidateArtifact(a)
      ensures artifacts == if err.Pass? then WithArtifact(old(artifacts), a) else old(artifacts)
    {
      err := ValidateArtifact(a);
      if err.Fail? {
        return;
      }
      var present := ContainsArtifact(a);
      if !present {
        artifacts := artifacts + [a];
      }
      WithArtifactValid(old(artifacts), a);
    }

    /** GetArtifacts: the registered list in fresh storage of its own, so a
        caller writing into it cannot reach the session's list. */
    method GetArtifacts() returns (copy: array<ArtifactDescription>)
      ensures fresh(copy) && copy[..] == artifacts
    {
      var s := artifacts;
      copy := new ArtifactDescription[|s|](i requires 0 <= i < |s| => s[i]);
    }

    /** uploadArtifacts: checks base URL, version and artifacts in that
        order, then sends each artifact's .md5, .sha1 and file PUTs through
        the client, returning at the first failure. The session itself is
        left as it was. */
    method UploadArtifacts(client: HttpMock, files: map<string, seq<byte>>, d: Digests) returns (err: Outcome)
      modifies client
      ensures var run := Execute(baseURL, version, artifacts, files, d, old(client.Pending()));
              && err == run.outcome
              && client.requests == old(client.requests) + run.sent
              && client.requestIndex == old(client.requestIndex) + |run.sent|
              && client.requestReplies == old(client.requestReplies)
    {
      if baseURL == "" {
        return Fail(NotConfiguredError(SetBaseURLStep));
      }
      if version == "" {
        return Fail(NotConfiguredError(SetArtifactsVersionStep));
      }
      if |artifacts| == 0 {
        return Fail(NoArtifactsError);
      }
      err := UploadEachArtifact(client, baseURL, version, artifacts, files, d);
    }
  }

  /** The loop of uploadArtifacts: each artifact's file is read and its
      three PUTs sent, in order, returning at the first failure. */
  method UploadEachArtifact(client: HttpMock, baseURL: string, version: string, arts: seq<ArtifactDescription>,
                            files: map<string, seq<byte>>, d: Digests) returns (err: Outcome)
    modifies client
    ensures var run := UploadEach(baseURL, version, arts, files, d, old(client.Pending()));
            && err == run.outcome
            && client.requests == old(client.requests) + run.sent
            && client.requestIndex == old(client.requestIndex) + |run.sent|
            && client.requestReplies == old(client.requestReplies)
  {
    ghost var replies := client.Pending();
    var i := 0;
    while i < |arts|
      invariant 0 <= i <= |arts|
      invariant Readable(arts[..i], files) && AllOK(replies, 3 * i)
      invariant client.requestReplies == old(client.requestReplies)
      invariant client.requestIndex == old(client.requestIndex) + 3 * i
      invariant client.requests == old(client.requests) + Plan(baseURL, version, arts[..i], files, d)
      invariant client.Pending() == Drop(replies, 3 * i)
    {
      var a := arts[i];
      if a.File !in files {
        UploadReadFailure(baseURL, version, arts, files, d, replies, i);
        return Fail(ReadError(a.File));
      }
      err := PutArtifact(client, ArtifactURL(baseURL, version, a), files[a.File], d);
      if err.Fail? {
        UploadFailsAt(baseURL, version, arts, files, d, replies, i, old(client.requests));
        return;
      }
      UploadStep(baseURL, version, arts, files, d, replies, i, old(client.requests));
      i := i + 1;
    }
    assert arts[..i] == arts;
    UploadSucceeds(baseURL, version, arts, files, d, replies);
    return Pass;
  }

  /** The three PUTs of one artifact through the client: .md5 checksum,
      .sha1 checksum, then the file, returning at the first failure. */
  method PutArtifact(client: HttpMock, url: string, bytes: seq<byte>, d: Digests) returns (err: Outcome)
    modifies client
    ensures var run := Send(ArtifactRequests(url, bytes, d), old(client.Pending()));
            && err == run.outcome
            && client.requests == old(client.requests) + run.sent
            && client.requestIndex == old(client.requestIndex) + |run.sent|
            && client.requestReplies == old(client.requestReplies)
            && client.Pending() == Drop(old(client.Pending()), |run.sent|)
  {
    ghost var rs := client.Pending();
    ghost var reqs := ArtifactRequests(url, bytes, d);
    assert Send(reqs, rs) == if ReplyOK(rs, 0) then Prepend([reqs[0]], Send(reqs[1..], Drop(rs, 1)))
                             else Run([reqs[0]], Fail(UploadError(url + ".md5")));
    assert Send(reqs[1..], Drop(rs, 1)) == if ReplyOK(rs, 1) then Prepend([reqs[1]], Send(reqs[2..], Drop(rs, 2)))
                                           else Run([reqs[1]], Fail(UploadError(url + ".sha1")));
    assert Send(reqs[2..], Drop(rs, 2)) == if ReplyOK(rs, 2) then Run([reqs[2]], Pass)
                                           else Run([reqs[2]], Fail(UploadError(url)));
    var ok := client.SendRequest(MethodPut, url + ".md5", Checksum(d.md5(bytes)));
    if !ok {
      return Fail(UploadError(url + ".md5"));
    }
    ok := client.SendRequest(MethodPut, url + ".sha1", Checksum(d.sha1(bytes)));
    if !ok {
      return Fail(UploadError(url + ".sha1"));
    }
    ok := client.SendRequest(MethodPut, url, Content(bytes));
    if !ok {
      return Fail(UploadError(url));
    }
    return Pass;
  }

  /** TestAddArtifactValid, TestAddArtifactMissingID, TestAddDuplicateArtifact
      and TestArtifactsNotDirectlyAccessible, restated as assertions against
      the contracts. */
  method RegistrationScenarios() {
    var pom := ArtifactDescription("artifact.id", "", "pom", "pom.xml");
    var up := new Upload();
    var err := up.AddArtifact(pom);
    assert err == Pass && up.artifacts == [pom];

    var other := new Upload();
    err := other.AddArtifact(ArtifactDescription("", "", "pom", "pom.xml"));
    assert err.Fail? && other.artifacts == [];

    var blob := ArtifactDescription("blob", "", "pom", "pom.xml");
    var dup := new Upload();
    err := dup.AddArtifact(blob);
    err := dup.AddArtifact(blob);
    assert err == Pass && |dup.artifacts| == 1;

    var copy := up.GetArtifacts();
    var again := up.GetArtifacts();
    copy[0] := ArtifactDescription("another.id", "", "pom", "pom.xml");
    assert up.artifacts[0].ID == "artifact.id";
    assert again[0].ID == "artifact.id";
  }

  /** TestSetBaseURLParamChecking and the artifacts-version tests. */
  method ConfigurationScenarios() {
    var up := new Upload();
    var err := up.SetBaseURL("", "nexus3", "maven-releases", "some.group.id");
    assert err.Fail?;
    err := up.SetBaseURL("localhost:8081", "3", "maven-releases", "some.group.id");
    assert err.Fail?;
    err := up.SetBaseURL("localhost:8081", "nexus3", "", "some.group.id");
    assert err.Fail?;
    err := up.SetBaseURL("localhost:8081", "nexus3", "maven-releases", "");
    assert err.Fail? && up.baseURL == "";
    err := up.SetArtifactsVersion("");
    assert err.Fail?;
    err := up.SetArtifactsVersion("1.0.0-SNAPSHOT");
    assert err == Pass;
  }

  /** TestUploadNoInit: each missing configuration step is reported by
      name, and nothing is sent. */
  method UploadNoInitScenarios(files: map<string, seq<byte>>, d: Digests) {
    var client := new HttpMock([true]);

    var up := new Upload();
    var err := up.UploadArtifacts(client, files, d);
    assert err == Fail(NotConfiguredError(SetBaseURLStep));

    up := new Upload();
    var setup := up.SetBaseURL("localhost:8081", "nexus3", "maven-releases", "my.group.id");
    err := up.UploadArtifacts(client, files, d);
    assert err == Fail(NotConfiguredError(SetArtifactsVersionStep));

    up := new Upload();
    setup := up.SetBaseURL("localhost:8081", "nexus3", "maven-releases", "my.group.id");
    setup := up.SetArtifactsVersion("1.0");
    err := up.UploadArtifacts(client, files, d);
    assert err == Fail(NoArtifactsError);
    assert client.requests == [] && client.requestIndex == 0;
  }

  /** The session of TestUploadWorks and TestUploadFails: base URL on a
      local Nexus 3, version 1.0, one pom artifact. */
  method ConfiguredSession() returns (up: Upload, a: ArtifactDescription)
    ensures fresh(up)
    ensures up.baseURL == GetBaseURL("localhost:8081", "nexus3", "maven-releases", "my.group.id").value
    ensures up.version == "1.0"
    ensures a == ArtifactDescription("artifact.id", "", "pom", "../../pom.xml") && up.artifacts == [a]
  {
    up := new Upload();
    var setup := up.SetBaseURL("localhost:8081", "nexus3", "maven-releases", "my.group.id");
    setup := up.SetArtifactsVersion("1.0");
    a := ArtifactDescription("artifact.id", "", "pom", "../../pom.xml");
    setup := up.AddArtifact(a);
    assert !HasID([], a.ID);
  }

  /** Layout of an artifact's URL below a base URL built by getBaseURL:
      the scheme, the base URL's parts, the id, the version, the file name.
      The statement joins the bodies of GetBaseURL and ArtifactURL, so it is
      the end-to-end URL shape rather than a property of its own. */
  lemma ArtifactURLLayout(host: string, nexusVersion: string, repository: string, groupID: string,
                          version: string, a: ArtifactDescription)
    requires GetBaseURL(host, nexusVersion, repository, groupID).Success?
    ensures ArtifactURL(GetBaseURL(host, nexusVersion, repository, groupID).value, version, a)
            == "http://" + host + NexusPath(nexusVersion) + repository + "/" + GroupPath(groupID) + "/"
               + a.ID + "/" + version + "/" + ArtifactName(version, a)
  {
  }

  /** The file URL of TestUploadWorks: artifact "artifact.id" of type pom,
      version 1.0, below the test's Nexus 3 base URL. */
  lemma UploadTestArtifactURL()
    ensures ArtifactURL(GetBaseURL("localhost:8081", "nexus3", "maven-releases", "my.group.id").value, "1.0",
                        ArtifactDescription("artifact.id", "", "pom", "../../pom.xml"))
            == "http://localhost:8081/repository/maven-releases/my/group/id/artifact.id/1.0/artifact.id-1.0.pom"
  {
    var a := ArtifactDescription("artifact.id", "", "pom", "../../pom.xml");
    ArtifactURLLayout("localhost:8081", "nexus3", "maven-releases", "my.group.id", "1.0", a);
    assert GroupPath("my.group.id") == "my/group/id";
    assert ArtifactName("1.0", a) == "artifact.id-1.0.pom" by {
      assert "artifact.id" + "-" == "artifact.id-";
      assert "artifact.id-" + "1.0" == "artifact.id-1.0";
      assert "artifact.id-1.0" + "" + "." == "artifact.id-1.0.";
      assert "artifact.id-1.0." + "pom" == "artifact.id-1.0.pom";
    }
    UploadTestRepositoryURL();
    UploadTestArtifactDir();
    UploadTestFileURL();
  }

  /** The repository part of the upload tests' URLs, spelt out. This and
      the next two lemmas state no property of the model: they only split a
      long string-literal comparison into steps the solver finishes. */
  lemma UploadTestRepositoryURL()
    ensures "http://" + "localhost:8081" + "/repository/" + "maven-releases" + "/"
            == "http://localhost:8081/repository/maven-releases/"
  {
    assert "http://" + "localhost:8081" == "http://localhost:8081";
    assert "http://localhost:8081" + "/repository/" == "http://localhost:8081/repository/";
    assert "http://localhost:8081/repository/" + "maven-releases" == "http://localhost:8081/repository/maven-releases";
  }

  /** The directory of the upload tests' artifact, spelt out (a solver aid). */
  lemma UploadTestArtifactDir()
    ensures "http://localhost:8081/repository/maven-releases/" + "my/group/id" + "/" + "artifact.id" + "/"
            == "http://localhost:8081/repository/maven-releases/my/group/id/artifact.id/"
  {
    assert "http://localhost:8081/repository/maven-releases/" + "my/group/id"
           == "http://localhost:8081/repository/maven-releases/my/group/id";
    assert "http://localhost:8081/repository/maven-releases/my/group/id" + "/"
           == "http://localhost:8081/repository/maven-releases/my/group/id/";
    assert "http://localhost:8081/repository/maven-releases/my/group/id/" + "artifact.id"
           == "http://localhost:8081/repository/maven-releases/my/group/id/artifact.id";
  }

  /** The file URL of the upload tests' artifact, spelt out (a solver aid). */
  lemma UploadTestFileURL()
    ensures "http://localhost:8081/repository/maven-releases/my/group/id/artifact.id/" + "1.0" + "/" + "artifact.id-1.0.pom"
            == "http://localhost:8081/repository/maven-releases/my/group/id/artifact.id/1.0/artifact.id-1.0.pom"
  {
    assert "http://localhost:8081/repository/maven-releases/my/group/id/artifact.id/" + "1.0"
           == "http://localhost:8081/repository/maven-releases/my/group/id/artifact.id/1.0";
    assert "http://localhost:8081/repository/maven-releases/my/group/id/artifact.id/1.0" + "/"
           == "http://localhost:8081/repository/maven-releases/my/group/id/artifact.id/1.0/";
    assert "artifact.id-1.0.pom" == "artifact.id" + "-1.0.pom";
    assert "http://localhost:8081/repository/maven-releases/my/group/id/artifact.id/1.0/" + "artifact.id"
           == "http://localhost:8081/repository/maven-releases/my/group/id/artifact.id/1.0/artifact.id";
  }

  /** The file URL TestUploadWorks expects. */
  const UploadTestURL := "http://localhost:8081/repository/maven-releases/my/group/id/artifact.id/1.0/artifact.id-1.0.pom"

  /** The run of TestUploadWorks: three successful replies let the single
      artifact's three PUTs through, .md5, .sha1 and then the file. */
  lemma UploadWorksRun(pom: seq<byte>, d: Digests)
    ensures var url := UploadTestURL;
            Execute(GetBaseURL("localhost:8081", "nexus3", "maven-releases", "my.group.id").value, "1.0",
                    [ArtifactDescription("artifact.id", "", "pom", "../../pom.xml")], map["../../pom.xml" := pom], d,
                    [true, true, true])
            == Run([ Request(MethodPut, url + ".md5", Checksum(d.md5(pom))),
                     Request(MethodPut, url + ".sha1", Checksum(d.sha1(pom))),
                     Request(MethodPut, url, Content(pom)) ], Pass)
  {
    var base := GetBaseURL("localhost:8081", "nexus3", "maven-releases", "my.group.id").value;
    var arts := [ArtifactDescription("artifact.id", "", "pom", "../../pom.xml")];
    var files := map["../../pom.xml" := pom];
    var replies := [true, true, true];
    UploadTestArtifactURL();
    assert Readable(arts, files) && AllOK(replies, 3);
    UploadSucceeds(base, "1.0", arts, files, d, replies);
    PlanRequestsOfArtifact(base, "1.0", arts, files, d, 0);
  }

  /** TestUploadWorks: three successful replies give exactly three PUTs,
      .md5, .sha1 and the file, to the expected URLs. */
  method UploadWorksScenario(pom: seq<byte>, d: Digests) {
    var client := new HttpMock([true, true, true]);
    var up, a := ConfiguredSession();
    var files := map["../../pom.xml" := pom];
    var err := up.UploadArtifacts(client, files, d);

    UploadWorksRun(pom, d);
    var url := UploadTestURL;
    assert err == Pass;
    assert client.requestIndex == 3;
    assert client.requests[0] == Request(MethodPut, url + ".md5", Checksum(d.md5(pom)));
    assert client.requests[1] == Request(MethodPut, url + ".sha1", Checksum(d.sha1(pom)));
    assert client.requests[2] == Request(MethodPut, url, Content(pom));
  }

  /** The run of TestUploadFails: the failed second reply ends the upload
      after the .md5 and .sha1 PUTs, reporting the .sha1 URL. */
  lemma UploadFailsRun(pom: seq<byte>, d: Digests)
    ensures var url := UploadTestURL;
            Execute(GetBaseURL("localhost:8081", "nexus3", "maven-releases", "my.group.id").value, "1.0",
                    [ArtifactDescription("artifact.id", "", "pom", "../../pom.xml")], map["../../pom.xml" := pom], d,
                    [true, false, true])
            == Run([ Request(MethodPut, url + ".md5", Checksum(d.md5(pom))),
                     Request(MethodPut, url + ".sha1", Checksum(d.sha1(pom))) ], Fail(UploadError(url + ".sha1")))
  {
    var base := GetBaseURL("localhost:8081", "nexus3", "maven-releases", "my.group.id").value;
    var arts := [ArtifactDescription("artifact.id", "", "pom", "../../pom.xml")];
    var files := map["../../pom.xml" := pom];
    var replies := [true, false, true];
    UploadTestArtifactURL();
    assert Readable(arts, files) && AllOK(replies, 1) && !ReplyOK(replies, 1);
    UploadStopsAtFirstFailure(base, "1.0", arts, files, d, replies, 1);
    PlanRequestsOfArtifact(base, "1.0", arts, files, d, 0);
    var p := Plan(base, "1.0", arts, files, d);
    assert p[..2] == [p[0], p[1]];
  }

  /** TestUploadFails: a failed second reply stops the upload after two
      requests, and the artifact stays registered. */
  method UploadFailsScenario(pom: seq<byte>, d: Digests) {
    var client := new HttpMock([true, false, true]);
    var up, a := ConfiguredSession();
    var files := map["../../pom.xml" := pom];
    var err := up.UploadArtifacts(client, files, d);

    UploadFailsRun(pom, d);
    assert err.Fail?;
    assert client.requestIndex == 2;
    assert |up.artifacts| == 1;
  }
}
