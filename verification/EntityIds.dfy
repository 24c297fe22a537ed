/**
 * The queue id of an indexed file, `<repo>::<path>`, taken apart again, and the batched existence
 * check that groups ids by repo.
 */
module EntityIds {
  datatype Parts = Parts(repo: string, filePath: string)

  function EntityId(repo: string, filePath: string): string {
    repo + "::" + filePath
  }

  /** `indexOf("::")`, with the length of the text for -1. */
  function IndexOfSeparator(s: string): (i: nat)
    ensures i <= |s|
  {
    if s == [] then 0
    else if "::" <= s then 0
    else 1 + IndexOfSeparator(s[1..])
  }

  function EntityParts(id: string): Parts {
    var sep := IndexOfSeparator(id);
    if sep == |id| || sep == 0 then Parts("", id) else
      SeparatorThere(id);
      Parts(id[..sep], id[sep + 2..])
  }

  predicate HasSeparator(s: string) {
    exists i :: 0 <= i < |s| - 1 && s[i] == ':' && s[i + 1] == ':'
  }

  lemma {:induction false} SeparatorThere(s: string)
    ensures var i := IndexOfSeparator(s);
            && (i < |s| ==> i + 2 <= |s| && s[i] == ':' && s[i + 1] == ':')
            && (forall j :: 0 <= j < i && j + 1 < |s| ==> !(s[j] == ':' && s[j + 1] == ':'))
    ensures IndexOfSeparator(s) < |s| <==> HasSeparator(s)
    decreases |s|
  {
    if s != [] && !("::" <= s) {
      SeparatorThere(s[1..]);
      var i := IndexOfSeparator(s[1..]);
      forall j | 0 <= j < i + 1 && j + 1 < |s|
        ensures !(s[j] == ':' && s[j + 1] == ':')
      {
        if j > 0 {
          assert s[1..][j - 1] == s[j] && s[1..][j] == s[j + 1];
        } else {
          assert s[..2] == [s[0], s[1]];
        }
      }
    }
  }

  /** The id can be taken apart exactly when the repo is not empty, has no `::` and does not end in a colon. */
  lemma PartsUndoId(repo: string, filePath: string)
    ensures EntityParts(EntityId(repo, filePath)) == Parts(repo, filePath) <==>
            repo != "" && !HasSeparator(repo) && repo[|repo| - 1] != ':'
  {
    var id := EntityId(repo, filePath);
    SeparatorThere(id);
    assert id[|repo|] == ':' && id[|repo| + 1] == ':';
    assert id[..|repo|] == repo && id[|repo| + 2..] == filePath;
    var sep := IndexOfSeparator(id);
    assert sep <= |repo|;
    if repo != "" && !HasSeparator(repo) && repo[|repo| - 1] != ':' {
      forall i | 0 <= i < |repo|
        ensures !(id[i] == ':' && id[i + 1] == ':')
      {
        assert id[i] == repo[i];
        assert i < |repo| - 1 ==> id[i + 1] == repo[i + 1];
      }
      assert sep == |repo|;
    } else if repo == "" {
      assert EntityParts(id).filePath == id && |id| == 2 + |filePath|;
    } else {
      if HasSeparator(repo) {
        var i :| 0 <= i < |repo| - 1 && repo[i] == ':' && repo[i + 1] == ':';
        assert id[i] == ':' && id[i + 1] == ':';
      } else {
        assert id[|repo| - 1] == ':' && id[|repo|] == ':';
      }
      assert sep < |repo|;
    }
  }

  /** The id has a separator, and something before it. */
  predicate WellFormed(id: string) {
    0 < IndexOfSeparator(id) < |id|
  }

  /** Putting the parts together again gives the id back exactly when it is well formed. */
  lemma IdUndoesParts(id: string)
    ensures EntityId(EntityParts(id).repo, EntityParts(id).filePath) == (if WellFormed(id) then id else "::" + id)
    ensures !WellFormed(id) ==> IndexOfSeparator("::" + id) == 0
  {
    SeparatorThere(id);
    var sep := IndexOfSeparator(id);
    if WellFormed(id) {
      assert id == id[..sep] + "::" + id[sep + 2..];
    }
  }

  // --- the batched lookup ---

  /** The indexed files, by repo and path. */
  type Files = set<(string, string)>

  /** What one job's own lookup asks. */
  predicate FileExists(files: Files, id: string) {
    (EntityParts(id).repo, EntityParts(id).filePath) in files
  }

  /** Some id of the batch that exists is written back as `id`. */
  ghost predicate FoundInBatch(files: Files, ids: seq<string>, id: string) {
    exists i :: 0 <= i < |ids| && FileExists(files, ids[i]) &&
                EntityId(EntityParts(ids[i]).repo, EntityParts(ids[i]).filePath) == id
  }

  /** For a well-formed id the grouped lookup answers what its own lookup would, whatever else is in the batch. */
  lemma GroupedLookupAgrees(files: Files, ids: seq<string>, id: string)
    requires id in ids && WellFormed(id)
    ensures FoundInBatch(files, ids, id) <==> FileExists(files, id)
  {
    IdUndoesParts(id);
    if FileExists(files, id) {
      var i :| 0 <= i < |ids| && ids[i] == id;
    }
    if FoundInBatch(files, ids, id) {
      var i :| 0 <= i < |ids| && FileExists(files, ids[i]) &&
               EntityId(EntityParts(ids[i]).repo, EntityParts(ids[i]).filePath) == id;
      IdUndoesParts(ids[i]);
    }
  }

  /** An id without a repo is found only through another id of the batch, the one it has two colons before. */
  lemma IllFormedIds(files: Files, ids: seq<string>, id: string)
    requires !WellFormed(id)
    ensures FoundInBatch(files, ids, id) <==>
            exists i :: 0 <= i < |ids| && !WellFormed(ids[i]) && ("", ids[i]) in files && id == "::" + ids[i]
  {
    forall i | 0 <= i < |ids|
      ensures FileExists(files, ids[i]) && EntityId(EntityParts(ids[i]).repo, EntityParts(ids[i]).filePath) == id <==>
              !WellFormed(ids[i]) && ("", ids[i]) in files && id == "::" + ids[i]
    {
      IdUndoesParts(ids[i]);
      SeparatorThere(ids[i]);
    }
  }

  predicate InGroups(groups: map<string, seq<string>>, repo: string, path: string) {
    repo in groups && path in groups[repo]
  }

  /** Group the ids by repo, read each group once, and write the ids that exist back. */
  method LoadExistingFileIds(files: Files, ids: seq<string>) returns (existing: set<string>)
    ensures forall id :: id in existing <==> FoundInBatch(files, ids, id)
  {
    var groups: map<string, seq<string>> := map[];
    for i := 0 to |ids|
      invariant forall repo, path :: InGroups(groups, repo, path) <==> exists j :: 0 <= j < i && EntityParts(ids[j]) == Parts(repo, path)
    {
      var parts := EntityParts(ids[i]);
      var paths := if parts.repo in groups then groups[parts.repo] else [];
      ghost var before := groups;
      groups := groups[parts.repo := paths + [parts.filePath]];
      forall repo, path
        ensures InGroups(groups, repo, path) <==> InGroups(before, repo, path) || parts == Parts(repo, path)
      {
      }
    }
    existing := {};
    var rest := groups.Keys;
    while rest != {}
      invariant rest <= groups.Keys
      invariant forall id :: id in existing <==>
        exists repo, path :: repo !in rest && InGroups(groups, repo, path) && (repo, path) in files && EntityId(repo, path) == id
      decreases rest
    {
      var repo :| repo in rest;
      var paths := groups[repo];
      var live := set p | p in paths && (repo, p) in files;
      existing := existing + set p | p in live :: EntityId(repo, p);
      rest := rest - {repo};
    }
  }
}
