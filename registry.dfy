/** The registered artifact list: validation of a description and the
    insertion that keeps the list unique by artifact id. */
module Registry {
  import opened Artifacts

  /** Some entry of the list carries this id. */
  predicate HasID(arts: seq<ArtifactDescription>, id: string) {
    exists i :: 0 <= i < |arts| && arts[i].ID == id
  }

  /** No two entries share an id. */
  predicate UniqueIDs(arts: seq<ArtifactDescription>) {
    forall i, j :: 0 <= i < j < |arts| ==> arts[i].ID != arts[j].ID
  }

  /** A description that may be registered: id and file are both given. */
  predicate WellFormed(a: ArtifactDescription) {
    a.ID != "" && a.File != ""
  }

  /** The session's invariant on its list: unique ids, every entry well formed. */
  predicate ValidList(arts: seq<ArtifactDescription>) {
    UniqueIDs(arts) && forall i :: 0 <= i < |arts| ==> WellFormed(arts[i])
  }

  /** The check AddArtifact makes first: an empty id is reported before an
      empty file. */
  function ValidateArtifact(a: ArtifactDescription): (o: Outcome)
    ensures o.Pass? <==> WellFormed(a)
    ensures a.ID == "" ==> o == Fail(ValidationError(EmptyArtifactID))
    ensures a.ID != "" && a.File == "" ==> o == Fail(ValidationError(EmptyArtifactFile))
  {
    if a.ID == "" then Fail(ValidationError(EmptyArtifactID))
    else if a.File == "" then Fail(ValidationError(EmptyArtifactFile))
    else Pass
  }

  /** The list after registering a: appended at the end unless its id is
      already present, in which case the list stays as it is. */
  function WithArtifact(arts: seq<ArtifactDescription>, a: ArtifactDescription): (r: seq<ArtifactDescription>)
    ensures |r| == if HasID(arts, a.ID) then |arts| else |arts| + 1
    ensures r[..|arts|] == arts
    ensures !HasID(arts, a.ID) ==> r[|arts|] == a
    ensures forall id :: HasID(r, id) <==> HasID(arts, id) || id == a.ID
  {
    if HasID(arts, a.ID) then arts else arts + [a]
  }

  /** Registering a well-formed artifact keeps the session's invariant. */
  lemma WithArtifactValid(arts: seq<ArtifactDescription>, a: ArtifactDescription)
    requires ValidList(arts) && WellFormed(a)
    ensures ValidList(WithArtifact(arts, a))
  {
    var r := WithArtifact(arts, a);
    if !HasID(arts, a.ID) {
      forall i, j | 0 <= i < j < |r| ensures r[i].ID != r[j].ID {
        if j == |arts| {
          assert r[i] == arts[i];
        }
      }
    }
  }

  /** Registering the same artifact twice is the same as registering it once,
      and a second description with a registered id leaves the first entry. */
  lemma WithArtifactIdempotent(arts: seq<ArtifactDescription>, a: ArtifactDescription, b: ArtifactDescription)
    requires b.ID == a.ID
    ensures WithArtifact(WithArtifact(arts, a), b) == WithArtifact(arts, a)
  {
    var r := WithArtifact(arts, a);
    assert HasID(r, a.ID);
  }
}
