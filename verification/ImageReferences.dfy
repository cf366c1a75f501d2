/** What normalising an image reference does: which part is filled in when, and that doing it twice adds nothing. */
module ImageReferences {
  import opened Text
  import opened ImageNames

  // ---------- cutting texts ----------

  lemma {:induction false} AfterLastFree(s: string, c: char)
    ensures !Has(AfterLast(s, c), c)
    ensures if Has(s, c) then s == BeforeLast(s, c) + [c] + AfterLast(s, c) else AfterLast(s, c) == s
  {
    if s != "" {
      var k := |s| - 1;
      if s[k] == c {
        assert s == s[..k] + [c] + "";
      } else {
        AfterLastFree(s[..k], c);
        assert s == s[..k] + [s[k]];
        if Has(s, c) {
          var i :| 0 <= i < |s| && s[i] == c;
          assert s[..k][i] == c;
        }
      }
    }
  }

  lemma {:induction false} HostOf(host: string, rest: string)
    requires !Has(host, '/')
    ensures BeforeFirst(host + "/" + rest, '/') == host
  {
    var s := host + "/" + rest;
    if host != "" {
      assert s[0] == host[0];
      assert s[1..] == host[1..] + "/" + rest;
      HostOf(host[1..], rest);
      assert host == [host[0]] + host[1..];
    }
  }

  lemma HasParts(a: string, b: string, c: char)
    ensures Has(a + b, c) <==> Has(a, c) || Has(b, c)
  {
    if i :| 0 <= i < |a| && a[i] == c {
      assert (a + b)[i] == c;
    }
    if i :| 0 <= i < |b| && b[i] == c {
      assert (a + b)[|a| + i] == c;
    }
  }

  /** The tag in a name is what stands behind its last colon, when no slash does. */
  lemma TagCut(repo: string, tag: string)
    requires !Has(tag, '/') && !Has(tag, ':')
    ensures var name := repo + ":" + tag;
            Has(AfterLast(name, '/'), ':') && AfterLast(name, ':') == tag && BeforeLast(name, ':') == repo
  {
    var name := repo + ":" + tag;
    CutAtLast(repo, ':', tag);
    AfterLastFree(name, '/');
    var tail := AfterLast(name, '/');
    HasParts(repo + ":", tag, '/');
    if Has(name, '/') {
      var before := BeforeLast(name, '/');
      assert name == before + ['/'] + tail;
      assert name[|before|] == '/' && name[|repo|] == ':';
      assert forall j :: |repo| < j < |name| ==> name[j] == tag[j - |repo| - 1];
      assert |before| < |repo|;
      assert tail[|repo| - |before| - 1] == ':';
    } else {
      assert name[|repo|] == ':';
    }
  }

  // ---------- what is filled in ----------

  /** A first path component that names a registry. */
  predicate IsRegistry(host: string) {
    Has(host, '.') || Has(host, ':')
  }

  /** The repository with its registry, and with the library path when it is a plain name. */
  function Qualified(repo: string): string {
    if !Has(repo, '/') then "docker.io/library/" + repo
    else if IsRegistry(BeforeFirst(repo, '/')) then repo
    else "docker.io/" + repo
  }

  /** A reference with a tag keeps it, and its repository is qualified. */
  lemma NormalizeTagged(repo: string, tag: string)
    requires TagText(tag) && !Has(repo, '@')
    ensures Normalize(repo + ":" + tag) == Qualified(repo) + ":" + tag
  {
    TagCut(repo, tag);
    HasParts(repo + ":", tag, '@');
    HasParts(repo, ":", '@');
    LibraryHost(repo);
    hide AfterLast, BeforeLast, BeforeFirst;
    assert Has(LIBRARY + repo, '/') by {
      assert (LIBRARY + repo)[7] == '/';
    }
    assert REGISTRY + (LIBRARY + repo) == "docker.io/library/" + repo;
  }

  /** A reference without a tag gets `latest`. */
  lemma NormalizeUntagged(name: string)
    requires !Has(name, '@') && !Has(AfterLast(name, '/'), ':')
    ensures Normalize(name) == Normalize(name + ":latest")
  {
    hide AfterLast, BeforeLast, BeforeFirst, Has;
    LatestText();
    TagCut(name, "latest");
    HasParts(name, LATEST, '@');
    assert name + LATEST == name + ":" + "latest";
  }

  lemma LatestText()
    ensures TagText("latest") && !Has("latest", '/') && !Has("latest", ':') && !Has(LATEST, '@')
  {
  }

  /** Every reference that is no digest has a repository and a tag, the tag being `latest` when none is written. */
  lemma Parts(name: string) returns (repo: string, tag: string)
    requires !Has(name, '@')
    ensures TagText(tag) && !Has(repo, '@') && Normalize(name) == Qualified(repo) + ":" + tag
    ensures if Has(AfterLast(name, '/'), ':') then name == repo + ":" + tag else name == repo && tag == "latest"
  {
    hide AfterLast, BeforeLast, Normalize, Qualified, Has;
    AfterLastFree(name, '/');
    var tail := AfterLast(name, '/');
    if Has(tail, ':') {
      AfterLastFree(tail, ':');
      tag := AfterLast(tail, ':');
      var front := BeforeLast(tail, ':');
      var before := if Has(name, '/') then BeforeLast(name, '/') + "/" else "";
      repo := before + front;
      assert name == before + tail;
      assert name == repo + ":" + tag && tail == front + ":" + tag;
      HasParts(front + ":", tag, '/');
      HasParts(repo + ":", tag, '@');
      HasParts(repo, ":", '@');
      NormalizeTagged(repo, tag);
    } else {
      repo, tag := name, "latest";
      NormalizeUntagged(name);
      LatestText();
      NormalizeTagged(name, "latest");
      assert name + ":latest" == name + ":" + "latest";
    }
  }

  lemma RegistryText()
    ensures IsRegistry("docker.io") && !Has("docker.io", '/')
    ensures !Has("docker.io/", '@') && !Has("docker.io/library/", '@')
  {
    assert "docker.io"[6] == '.';
  }

  /** Behind docker.io a repository is qualified. */
  lemma QualifiedFixed(path: string)
    ensures Qualified("docker.io/" + path) == "docker.io/" + path
  {
    RegistryText();
    HostOf("docker.io", path);
    assert "docker.io/" + path == "docker.io" + "/" + path;
    assert ("docker.io/" + path)[9] == '/';
    assert Has("docker.io/" + path, '/');
    hide BeforeFirst, IsRegistry;
  }

  lemma QualifiedTwice(repo: string)
    ensures Qualified(Qualified(repo)) == Qualified(repo)
    ensures !Has(repo, '@') ==> !Has(Qualified(repo), '@')
  {
    hide Has, BeforeFirst, IsRegistry;
    QualifiedFixed(repo);
    QualifiedFixed("library/" + repo);
    assert "docker.io/library/" + repo == "docker.io/" + ("library/" + repo);
    RegistryText();
    HasParts("docker.io/library/", repo, '@');
    HasParts("docker.io/", repo, '@');
  }

  /** Normalising a normalised reference changes nothing. */
  lemma NormalizeTwice(name: string)
    ensures Normalize(Normalize(name)) == Normalize(name)
  {
    if !Has(name, '@') {
      var repo, tag := Parts(name);
      hide Normalize, Qualified, AfterLast;
      QualifiedTwice(repo);
      NormalizeTagged(Qualified(repo), tag);
    }
  }
}
