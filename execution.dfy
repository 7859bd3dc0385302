/** What an upload run does, as functions: the URL of each artifact, the
    three PUTs it gets, and the run over all artifacts against a script of
    transport replies, stopping at the first failure. */
module Execution {
  import opened Artifacts
  import opened Transport

  /** The digest algorithms, each giving a lowercase hexadecimal string.
      They are library code, so the model keeps them uninterpreted. */
  datatype Digests = Digests(md5: seq<byte> -> string, sha1: seq<byte> -> string)

  /** What a run did: the requests it sent, in order, and its result. */
  datatype Run = Run(sent: seq<Request>, outcome: Outcome)

  /** A run preceded by requests that all succeeded. */
  function Prepend(done: seq<Request>, r: Run): Run {
    Run(done + r.sent, r.outcome)
  }

  /** Prepending twice is prepending the concatenation. */
  lemma PrependPrepend(a: seq<Request>, b: seq<Request>, r: Run)
    ensures Prepend(a, Prepend(b, r)) == Prepend(a + b, r)
  {
    assert a + (b + r.sent) == (a + b) + r.sent;
  }

  /** Remote file name: <ID>-<version>[-<Classifier>].<Type>. */
  function ArtifactName(version: string, a: ArtifactDescription): string {
    a.ID + "-" + version + (if a.Classifier == "" then "" else "-" + a.Classifier) + "." + a.Type
  }

  /** Upload URL of an artifact below the base URL. */
  function ArtifactURL(baseURL: string, version: string, a: ArtifactDescription): string {
    "http://" + baseURL + a.ID + "/" + version + "/" + ArtifactName(version, a)
  }

  /** Where each part of a remote file name sits: the id, '-', the version,
      then '-' and the classifier only when there is one, then '.' and the
      type. */
  lemma ArtifactNameLayout(version: string, a: ArtifactDescription)
    ensures var name := ArtifactName(version, a);
            var k := |a.ID| + 1 + |version|;
            var c := if a.Classifier == "" then 0 else 1 + |a.Classifier|;
            && |name| == k + c + 1 + |a.Type|
            && name[..|a.ID|] == a.ID
            && name[|a.ID|] == '-'
            && name[|a.ID| + 1..k] == version
            && (a.Classifier != "" ==> name[k] == '-' && name[k + 1..k + c] == a.Classifier)
            && name[k + c] == '.'
            && name[k + c + 1..] == a.Type
  {
    var k := |a.ID| + 1 + |version|;
    var mid := a.ID + "-" + version;
    var cls := if a.Classifier == "" then "" else "-" + a.Classifier;
    var name := mid + cls + "." + a.Type;
    assert name == ArtifactName(version, a);
    assert name[..k] == mid && mid[..|a.ID|] == a.ID && mid[|a.ID| + 1..] == version;
    assert name[k..k + |cls|] == cls;
    assert name[k + |cls| + 1..] == a.Type;
  }

  /** Where each part of an artifact URL sits: "http://", the base URL, the
      id, '/', the version, '/', then the remote file name. */
  lemma ArtifactURLParts(baseURL: string, version: string, a: ArtifactDescription)
    ensures var url := ArtifactURL(baseURL, version, a);
            var n := |"http://"| + |baseURL|;
            var m := n + |a.ID|;
            && |url| == m + 1 + |version| + 1 + |ArtifactName(version, a)|
            && url[..n] == "http://" + baseURL
            && url[n..m] == a.ID
            && url[m] == '/'
            && url[m + 1..m + 1 + |version|] == version
            && url[m + 1 + |version|] == '/'
            && url[m + 2 + |version|..] == ArtifactName(version, a)
  {
    var front := "http://" + baseURL;
    var n := |front|;
    var m := n + |a.ID|;
    var upToID := front + a.ID;
    var upToVersion := upToID + "/" + version;
    var url := upToVersion + "/" + ArtifactName(version, a);
    assert url == ArtifactURL(baseURL, version, a);
    assert url[..m] == upToID && upToID[..n] == front && upToID[n..] == a.ID;
    assert url[..m + 1 + |version|] == upToVersion && upToVersion[m + 1..] == version;
  }

  /** The three PUTs of one artifact, in the order they are sent: MD5
      checksum, SHA1 checksum, then the file itself. */
  function ArtifactRequests(url: string, bytes: seq<byte>, d: Digests): seq<Request> {
    [ Request(MethodPut, url + ".md5", Checksum(d.md5(bytes))),
      Request(MethodPut, url + ".sha1", Checksum(d.sha1(bytes))),
      Request(MethodPut, url, Content(bytes)) ]
  }

  /** The file of every artifact can be read. */
  predicate Readable(arts: seq<ArtifactDescription>, files: map<string, seq<byte>>) {
    forall i :: 0 <= i < |arts| ==> arts[i].File in files
  }

  /** The three PUTs of artifact a with its file's current bytes. */
  function RequestsOf(baseURL: string, version: string, a: ArtifactDescription,
                      files: map<string, seq<byte>>, d: Digests): seq<Request>
    requires a.File in files
  {
    ArtifactRequests(ArtifactURL(baseURL, version, a), files[a.File], d)
  }

  /** Every artifact's file can be read exactly when the first one can and
      every later one can. */
  lemma ReadableCons(arts: seq<ArtifactDescription>, files: map<string, seq<byte>>)
    requires arts != []
    ensures Readable(arts, files) <==> arts[0].File in files && Readable(arts[1..], files)
  {
    if arts[0].File in files && Readable(arts[1..], files) {
      forall i | 0 <= i < |arts| ensures arts[i].File in files {
        if i > 0 { assert arts[i] == arts[1..][i - 1]; }
      }
    }
  }

  /** Every request of a run in which nothing fails: artifact i owns the
      three requests at positions 3i, 3i+1 and 3i+2. */
  function Plan(baseURL: string, version: string, arts: seq<ArtifactDescription>,
                files: map<string, seq<byte>>, d: Digests): (p: seq<Request>)
    requires Readable(arts, files)
    ensures |p| == 3 * |arts|
    ensures forall i :: 0 <= i < |arts| ==> p[3 * i..3 * i + 3] == RequestsOf(baseURL, version, arts[i], files, d)
    decreases |arts|
  {
    if arts == [] then []
    else
      ReadableCons(arts, files);
      var head := RequestsOf(baseURL, version, arts[0], files, d);
      var tail := Plan(baseURL, version, arts[1..], files, d);
      PlanSlices(head, tail, arts, baseURL, version, files, d);
      head + tail
  }

  /** The slicing step of Plan: putting one artifact's requests in front
      moves every later artifact's slice by three. */
  lemma PlanSlices(head: seq<Request>, tail: seq<Request>, arts: seq<ArtifactDescription>,
                   baseURL: string, version: string, files: map<string, seq<byte>>, d: Digests)
    requires arts != [] && Readable(arts, files)
    requires head == RequestsOf(baseURL, version, arts[0], files, d)
    requires |tail| == 3 * (|arts| - 1)
    requires forall i :: 0 <= i < |arts| - 1 ==> tail[3 * i..3 * i + 3] == RequestsOf(baseURL, version, arts[1..][i], files, d)
    ensures forall i :: 0 <= i < |arts| ==> (head + tail)[3 * i..3 * i + 3] == RequestsOf(baseURL, version, arts[i], files, d)
  {
    forall i | 0 <= i < |arts| ensures (head + tail)[3 * i..3 * i + 3] == RequestsOf(baseURL, version, arts[i], files, d) {
      if i == 0 {
        assert (head + tail)[..3] == head;
      } else {
        assert arts[i] == arts[1..][i - 1];
        assert (head + tail)[3 * i..3 * i + 3] == tail[3 * (i - 1)..3 * (i - 1) + 3];
      }
    }
  }

  /** The plan of a concatenation is the concatenation of the plans. */
  lemma {:induction false} PlanAppend(baseURL: string, version: string, a: seq<ArtifactDescription>,
                                      b: seq<ArtifactDescription>, files: map<string, seq<byte>>, d: Digests)
    requires Readable(a, files) && Readable(b, files)
    ensures Readable(a + b, files)
    ensures Plan(baseURL, version, a + b, files, d) == Plan(baseURL, version, a, files, d) + Plan(baseURL, version, b, files, d)
    decreases |a|
  {
    var ab := a + b;
    assert Readable(ab, files) by {
      forall i | 0 <= i < |ab| ensures ab[i].File in files {
        if i >= |a| { assert ab[i] == b[i - |a|]; }
      }
    }
    if a != [] {
      assert ab[1..] == a[1..] + b;
      ReadableCons(a, files);
      PlanAppend(baseURL, version, a[1..], b, files, d);
    } else {
      assert ab == b;
    }
  }

  /** The PUTs of artifact i, in the order sent: its .md5 checksum, its .sha1
      checksum, then its file, all to the artifact's URL. */
  lemma PlanRequestsOfArtifact(baseURL: string, version: string, arts: seq<ArtifactDescription>,
                               files: map<string, seq<byte>>, d: Digests, i: nat)
    requires Readable(arts, files) && i < |arts|
    ensures var p := Plan(baseURL, version, arts, files, d);
            var url := ArtifactURL(baseURL, version, arts[i]);
            var bytes := files[arts[i].File];
            && p[3 * i] == Request(MethodPut, url + ".md5", Checksum(d.md5(bytes)))
            && p[3 * i + 1] == Request(MethodPut, url + ".sha1", Checksum(d.sha1(bytes)))
            && p[3 * i + 2] == Request(MethodPut, url, Content(bytes))
  {
    var p := Plan(baseURL, version, arts, files, d);
    var s := p[3 * i..3 * i + 3];
    assert s == RequestsOf(baseURL, version, arts[i], files, d);
    assert p[3 * i] == s[0] && p[3 * i + 1] == s[1] && p[3 * i + 2] == s[2];
  }

  /** Sends reqs in order, the j-th answered by replies[j], and stops right
      after the first request that fails. */
  function Send(reqs: seq<Request>, replies: seq<bool>): (r: Run)
    ensures |r.sent| <= |reqs| && r.sent == reqs[..|r.sent|]
    ensures r.outcome.Pass? <==> AllOK(replies, |reqs|)
    ensures r.outcome.Pass? ==> r.sent == reqs
    ensures r.outcome.Fail? ==>
              && 0 < |r.sent|
              && AllOK(replies, |r.sent| - 1)
              && !ReplyOK(replies, |r.sent| - 1)
              && r.outcome.error == UploadError(reqs[|r.sent| - 1].url)
    decreases |reqs|
  {
    if reqs == [] then Run([], Pass)
    else if !ReplyOK(replies, 0) then Run([reqs[0]], Fail(UploadError(reqs[0].url)))
    else
      var rest := Send(reqs[1..], Drop(replies, 1));
      AllOKSplit(replies, 1, |reqs| - 1);
      AllOKSplit(replies, 1, if rest.outcome.Fail? then |rest.sent| - 1 else 0);
      Prepend([reqs[0]], rest)
  }

  /** The loop of the upload over the registered artifacts: read the file,
      send its three PUTs, and go on with the next artifact only if all
      three succeeded. */
  function UploadEach(baseURL: string, version: string, arts: seq<ArtifactDescription>,
                      files: map<string, seq<byte>>, d: Digests, replies: seq<bool>): (r: Run)
    ensures |r.sent| <= 3 * |arts|
    ensures forall q :: q in r.sent ==> q.verb == MethodPut
    ensures r.outcome.Fail? ==> r.outcome.error.ReadError? || r.outcome.error.UploadError?
    decreases |arts|
  {
    if arts == [] then Run([], Pass)
    else if arts[0].File !in files then Run([], Fail(ReadError(arts[0].File)))
    else
      var first := Send(RequestsOf(baseURL, version, arts[0], files, d), replies);
      if first.outcome.Fail? then first
      else Prepend(first.sent, UploadEach(baseURL, version, arts[1..], files, d, Drop(replies, 3)))
  }

  /** uploadArtifacts as a function: the three configuration checks in
      their fixed order, then the loop over the artifacts. */
  function Execute(baseURL: string, version: string, arts: seq<ArtifactDescription>,
                   files: map<string, seq<byte>>, d: Digests, replies: seq<bool>): (r: Run)
    ensures r.outcome == Fail(NotConfiguredError(SetBaseURLStep)) <==> baseURL == ""
    ensures r.outcome == Fail(NotConfiguredError(SetArtifactsVersionStep)) <==> baseURL != "" && version == ""
    ensures r.outcome == Fail(NoArtifactsError) <==> baseURL != "" && version != "" && arts == []
    ensures baseURL == "" || version == "" || arts == [] ==> r.sent == []
    ensures |r.sent| <= 3 * |arts|
    ensures forall q :: q in r.sent ==> q.verb == MethodPut
  {
    if baseURL == "" then Run([], Fail(NotConfiguredError(SetBaseURLStep)))
    else if version == "" then Run([], Fail(NotConfiguredError(SetArtifactsVersionStep)))
    else if arts == [] then Run([], Fail(NoArtifactsError))
    else UploadEach(baseURL, version, arts, files, d, replies)
  }

  /** Whatever the replies, a run whose files can all be read has sent a
      prefix of the plan: no request out of order, none repeated. */
  lemma {:induction false} UploadSendsPlanPrefix(baseURL: string, version: string, arts: seq<ArtifactDescription>,
                                                 files: map<string, seq<byte>>, d: Digests, replies: seq<bool>)
    requires Readable(arts, files)
    ensures var r := UploadEach(baseURL, version, arts, files, d, replies);
            r.sent == Plan(baseURL, version, arts, files, d)[..|r.sent|]
    decreases |arts|
  {
    if arts != [] {
      ReadableCons(arts, files);
      var head := RequestsOf(baseURL, version, arts[0], files, d);
      var p := Plan(baseURL, version, arts, files, d);
      var tail := Plan(baseURL, version, arts[1..], files, d);
      assert p == head + tail;
      var first := Send(head, replies);
      if first.outcome.Fail? {
        assert p[..|first.sent|] == head[..|first.sent|];
      } else {
        var rest := UploadEach(baseURL, version, arts[1..], files, d, Drop(replies, 3));
        UploadSendsPlanPrefix(baseURL, version, arts[1..], files, d, Drop(replies, 3));
        assert p[..3 + |rest.sent|] == head + tail[..|rest.sent|];
      }
    }
  }

  /** One step of the loop: an artifact whose file is read and whose three
      replies succeed contributes its three PUTs, then the rest follows. */
  lemma UploadEachStep(baseURL: string, version: string, arts: seq<ArtifactDescription>,
                       files: map<string, seq<byte>>, d: Digests, replies: seq<bool>)
    requires arts != [] && arts[0].File in files && AllOK(replies, 3)
    ensures UploadEach(baseURL, version, arts, files, d, replies)
            == Prepend(RequestsOf(baseURL, version, arts[0], files, d),
                       UploadEach(baseURL, version, arts[1..], files, d, Drop(replies, 3)))
  {
    var head := RequestsOf(baseURL, version, arts[0], files, d);
    assert Send(head, replies) == Run(head, Pass);
  }

  /** After i artifacts whose files were read and whose 3 * i replies all
      succeeded, the run is their plan followed by the run over the rest. */
  lemma {:induction false} UploadEachSplit(baseURL: string, version: string, arts: seq<ArtifactDescription>,
                                           files: map<string, seq<byte>>, d: Digests, replies: seq<bool>, i: nat)
    requires i <= |arts| && Readable(arts[..i], files) && AllOK(replies, 3 * i)
    ensures UploadEach(baseURL, version, arts, files, d, replies)
            == Prepend(Plan(baseURL, version, arts[..i], files, d),
                       UploadEach(baseURL, version, arts[i..], files, d, Drop(replies, 3 * i)))
    decreases i
  {
    if i == 0 {
      assert arts[..0] == [] && arts[0..] == arts;
      assert Drop(replies, 0) == replies;
    } else {
      var front := arts[..i];
      var rest := arts[1..];
      var rs := Drop(replies, 3);
      var later := UploadEach(baseURL, version, arts[i..], files, d, Drop(replies, 3 * i));
      SliceShift(arts, i);
      assert arts[0].File in files && AllOK(replies, 3)
                    && Readable(rest[..i - 1], files) && AllOK(rs, 3 * (i - 1)) by {
        ReadableCons(front, files);
        AllOKSplit(replies, 3, 3 * (i - 1));
      }
      var head := RequestsOf(baseURL, version, arts[0], files, d);
      var middle := Plan(baseURL, version, rest[..i - 1], files, d);
      assert UploadEach(baseURL, version, arts, files, d, replies)
             == Prepend(head, UploadEach(baseURL, version, rest, files, d, rs)) by {
        UploadEachStep(baseURL, version, arts, files, d, replies);
      }
      assert Drop(rs, 3 * (i - 1)) == Drop(replies, 3 * i) by {
        DropDrop(replies, 3, 3 * (i - 1));
      }
      UploadEachSplit(baseURL, version, rest, files, d, rs, i - 1);
      assert Plan(baseURL, version, front, files, d) == head + middle by {
        ReadableCons(front, files);
      }
      PrependPrepend(head, middle, later);
    }
  }

  /** Slicing off the first element commutes with taking and dropping. */
  lemma SliceShift<T>(s: seq<T>, i: nat)
    requires 1 <= i <= |s|
    ensures s[..i][0] == s[0] && s[..i][1..] == s[1..][..i - 1] && s[1..][i - 1..] == s[i..]
  {
  }

  /** An artifact whose three PUTs all succeeded extends the finished part
      of the run by its own requests. */
  lemma UploadStep(baseURL: string, version: string, arts: seq<ArtifactDescription>,
                   files: map<string, seq<byte>>, d: Digests, replies: seq<bool>, i: nat,
                   before: seq<Request>)
    requires i < |arts| && Readable(arts[..i], files) && AllOK(replies, 3 * i) && arts[i].File in files
    requires Send(RequestsOf(baseURL, version, arts[i], files, d), Drop(replies, 3 * i)).outcome.Pass?
    ensures Readable(arts[..i + 1], files) && AllOK(replies, 3 * (i + 1))
    ensures before + Plan(baseURL, version, arts[..i], files, d) + RequestsOf(baseURL, version, arts[i], files, d)
            == before + Plan(baseURL, version, arts[..i + 1], files, d)
    ensures Drop(Drop(replies, 3 * i), 3) == Drop(replies, 3 * (i + 1))
  {
    AllOKSplit(replies, 3 * i, 3);
    DropDrop(replies, 3 * i, 3);
    PlanStep(baseURL, version, arts, files, d, i);
    var p := Plan(baseURL, version, arts[..i], files, d);
    var reqs := RequestsOf(baseURL, version, arts[i], files, d);
    assert before + p + reqs == before + (p + reqs);
  }

  /** The plan of the first i + 1 artifacts is the plan of the first i
      followed by the requests of artifact i. */
  lemma PlanStep(baseURL: string, version: string, arts: seq<ArtifactDescription>,
                 files: map<string, seq<byte>>, d: Digests, i: nat)
    requires i < |arts| && Readable(arts[..i], files) && arts[i].File in files
    ensures Readable(arts[..i + 1], files)
    ensures Plan(baseURL, version, arts[..i], files, d) + RequestsOf(baseURL, version, arts[i], files, d)
            == Plan(baseURL, version, arts[..i + 1], files, d)
  {
    var a := arts[i];
    assert arts[..i] + [a] == arts[..i + 1];
    assert Readable([a], files);
    PlanAppend(baseURL, version, arts[..i], [a], files, d);
    assert Plan(baseURL, version, [a], files, d) == RequestsOf(baseURL, version, a, files, d);
  }

  /** After i artifacts whose files were read and whose 3 * i replies all
      succeeded, a failed PUT of artifact i ends the whole upload: the
      requests recorded so far, the earlier artifacts' plan, and the failed
      artifact's requests up to the failure are exactly what it sent. */
  lemma UploadFailsAt(baseURL: string, version: string, arts: seq<ArtifactDescription>,
                      files: map<string, seq<byte>>, d: Digests, replies: seq<bool>, i: nat,
                      before: seq<Request>)
    requires i < |arts| && Readable(arts[..i], files) && AllOK(replies, 3 * i) && arts[i].File in files
    requires Send(RequestsOf(baseURL, version, arts[i], files, d), Drop(replies, 3 * i)).outcome.Fail?
    ensures var run := UploadEach(baseURL, version, arts, files, d, replies);
            var first := Send(RequestsOf(baseURL, version, arts[i], files, d), Drop(replies, 3 * i));
            && run.outcome == first.outcome
            && before + run.sent == before + Plan(baseURL, version, arts[..i], files, d) + first.sent
            && |run.sent| == 3 * i + |first.sent|
  {
    UploadEachSplit(baseURL, version, arts, files, d, replies, i);
    assert arts[i..][0] == arts[i];
    var p := Plan(baseURL, version, arts[..i], files, d);
    var first := Send(RequestsOf(baseURL, version, arts[i], files, d), Drop(replies, 3 * i));
    assert before + (p + first.sent) == before + p + first.sent;
  }

  /** A run succeeds exactly when every file can be read and each of the
      3 * |arts| requests gets a success reply; it then sent the whole plan. */
  lemma {:induction false} UploadSucceeds(baseURL: string, version: string, arts: seq<ArtifactDescription>,
                                          files: map<string, seq<byte>>, d: Digests, replies: seq<bool>)
    ensures UploadEach(baseURL, version, arts, files, d, replies).outcome.Pass?
            <==> Readable(arts, files) && AllOK(replies, 3 * |arts|)
    ensures Readable(arts, files) && UploadEach(baseURL, version, arts, files, d, replies).outcome.Pass?
            ==> UploadEach(baseURL, version, arts, files, d, replies).sent == Plan(baseURL, version, arts, files, d)
    decreases |arts|
  {
    if arts != [] {
      ReadableCons(arts, files);
      AllOKSplit(replies, 3, 3 * (|arts| - 1));
      UploadSucceeds(baseURL, version, arts[1..], files, d, Drop(replies, 3));
    }
  }

  /** Stop at the first failure: when every file can be read and request k
      is the first to fail, the run sent exactly the first k + 1 requests
      of the plan and reports the failed request's URL. Every file is
      required readable so that the whole plan is defined; files after the
      failing artifact are never read, as UploadFailsAt shows for a
      partial prefix. */
  lemma UploadStopsAtFirstFailure(baseURL: string, version: string, arts: seq<ArtifactDescription>,
                                  files: map<string, seq<byte>>, d: Digests, replies: seq<bool>, k: nat)
    requires Readable(arts, files) && k < 3 * |arts|
    requires AllOK(replies, k) && !ReplyOK(replies, k)
    ensures var p := Plan(baseURL, version, arts, files, d);
            UploadEach(baseURL, version, arts, files, d, replies) == Run(p[..k + 1], Fail(UploadError(p[k].url)))
  {
    var i := k / 3;
    var front := arts[..i];
    var rest := arts[i..];
    assert front + rest == arts;
    assert Readable(front, files) && Readable(rest, files) by {
      forall j | 0 <= j < |front| ensures front[j].File in files { assert front[j] == arts[j]; }
      forall j | 0 <= j < |rest| ensures rest[j].File in files { assert rest[j] == arts[i + j]; }
    }
    AllOKSplit(replies, 3 * i, k - 3 * i);
    UploadEachSplit(baseURL, version, arts, files, d, replies, i);
    var rs := Drop(replies, 3 * i);
    assert !ReplyOK(rs, k - 3 * i);
    var reqs := RequestsOf(baseURL, version, rest[0], files, d);
    FailsInFirst(baseURL, version, rest, files, d, rs, k - 3 * i);
    PlanAppend(baseURL, version, front, rest, files, d);
    var pf := Plan(baseURL, version, front, files, d);
    var pr := Plan(baseURL, version, rest, files, d);
    var p := Plan(baseURL, version, arts, files, d);
    assert pr[..3] == reqs;
    assert p == pf + pr && |pf| == 3 * i;
    PrefixThrough(pf, pr, reqs, k - 3 * i);
    var tail := UploadEach(baseURL, version, rest, files, d, rs);
    assert tail == Run(reqs[..k - 3 * i + 1], Fail(UploadError(reqs[k - 3 * i].url)));
    assert UploadEach(baseURL, version, arts, files, d, replies) == Prepend(pf, tail);
  }

  /** A failure among the first artifact's three replies ends the run right
      after the failed request. */
  lemma FailsInFirst(baseURL: string, version: string, arts: seq<ArtifactDescription>,
                     files: map<string, seq<byte>>, d: Digests, replies: seq<bool>, j: nat)
    requires arts != [] && arts[0].File in files && j < 3
    requires AllOK(replies, j) && !ReplyOK(replies, j)
    ensures var reqs := RequestsOf(baseURL, version, arts[0], files, d);
            UploadEach(baseURL, version, arts, files, d, replies) == Run(reqs[..j + 1], Fail(UploadError(reqs[j].url)))
  {
    var first := Send(RequestsOf(baseURL, version, arts[0], files, d), replies);
    assert |first.sent| == j + 1;
  }

  /** Cutting pf + pr inside a prefix reqs of pr. */
  lemma PrefixThrough<T>(pf: seq<T>, pr: seq<T>, reqs: seq<T>, j: nat)
    requires j < |reqs| <= |pr| && pr[..|reqs|] == reqs
    ensures (pf + pr)[..|pf| + j + 1] == pf + reqs[..j + 1]
    ensures (pf + pr)[|pf| + j] == reqs[j]
  {
    assert pr[..j + 1] == reqs[..j + 1];
  }

  /** A file that cannot be read stops the run before its artifact's first
      request: the earlier artifacts' plan has been sent, nothing more. */
  lemma UploadReadFailure(baseURL: string, version: string, arts: seq<ArtifactDescription>,
                          files: map<string, seq<byte>>, d: Digests, replies: seq<bool>, i: nat)
    requires i < |arts| && Readable(arts[..i], files) && arts[i].File !in files
    requires AllOK(replies, 3 * i)
    ensures UploadEach(baseURL, version, arts, files, d, replies)
            == Run(Plan(baseURL, version, arts[..i], files, d), Fail(ReadError(arts[i].File)))
  {
    UploadEachSplit(baseURL, version, arts, files, d, replies, i);
    assert arts[i..][0] == arts[i];
  }
}
